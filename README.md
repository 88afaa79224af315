# Pomodoro timer: session state machine and progress rendering

A Dafny model of the core of a CircuitPython Pomodoro timer (`code.py`). The
timer runs work sessions of 25 minutes, short breaks of 5 minutes and a long
break of 15 minutes. On natural expiry it moves along a fixed 8-entry cycle
(work and short break three times, then work and long break). A loud
microphone reading, debounced to one per second, stands in for a voice
command: each accepted reading runs the next of four fixed commands ("start
timer", "pause timer", "start short break", "start long break") and moves a
cursor cyclically over that list. Every main-loop tick recomputes the
remaining seconds. When the integer second changes, the tick redraws a
session label, an `MM:SS` countdown and a ring of 120 arc segments.

Files and modules:

- `config.dfy`, module `Config`: session kinds, durations, the rollover cycle,
  arc colours, the command list, and `TruncDiv`, which is Python's `int()` of a
  quotient (truncation toward zero).
- `format.dfy`, module `Format`: `format_time` and an independent parser
  `ParseTime` that inverts it.
- `progress.dfy`, module `Progress`: the lit-segment count of
  `update_progress_arc`, the segment colours, and `Render`, the whole screen
  after a redraw.
- `timing.dfy`, module `Timing`: the timer state as a value (`Timer`), with the
  dispatcher, the debounce gate, the countdown with natural expiry and one
  whole tick as functions. The lemmas about them live here too.
- `device.dfy`, module `Device`: class `Pomodoro`. It holds the source's
  module-level variables as fields, plus the two label texts and an `array` of
  120 segment colours. Its methods update these in place, as the source does.
  Each method's `ensures` ties the new state to the `Timing` function of the
  old state, and the new screen to `Progress.Render`.

Time is an integer number of milliseconds. Each tick takes `now` as a
parameter. A ghost field `clock` records the latest reading, and `Tick`
requires `now` to be at least that reading, because the clock is monotonic.
So `int(now - session_start)` becomes `TruncDiv(now - start, 1000)`, and the
debounce test `now - last_sound_time > 1.0` becomes
`now - lastSound > 1000`.

The paused branch of the tick is kept as written. It recomputes
`remaining` from the same `session_start` anchor as the active branch, and it
never checks for expiry. So a paused timer's remaining time keeps falling,
and it goes negative once the pause outlasts the session. `PausedDrift` and
`PausedRemainingGoesNegative` state this. `FormatTime` is modelled for
negative counts as well: Python's `//` and `%` by 60 agree with Dafny's `/` and
`%` for a positive divisor, and `f"{m:02}"` of a negative `m` is `-` followed by
its digits.

## Model

| member | source | states |
|---|---|---|
| Config.Label | code.py:64-66 | the session label (shown at code.py:206) reads "WORK" exactly for work, "BREAK" exactly for the short break and "LONG" exactly for the long break, so the text names the kind |
| Config.Duration | code.py:68-72 | every session duration lies in [300, 1500] seconds (the body holds the table: work 1500 s, short break 300 s, long break 900 s) |
| Config.ArcColor | code.py:114 | work gets 0x00FF00 and both break kinds get 0x00BFFF; neither colour is black |
| Config.DivBounds | code.py:188 | floor division of a non-negative number by a positive one brackets it between two consecutive multiples |
| Config.TruncDiv | code.py:188 | int() of a quotient truncates toward zero: q*b <= a < q*b+b for a >= 0, and q*b-b < a <= q*b for a < 0 |
| Config.TruncDivMonotone | code.py:111 | truncating a quotient keeps the order of the numerators |
| Config.CycleAlternates | code.py:76 | along the rollover cycle, work and break kinds alternate, and the long break is only the last entry |
| Format.Decimal | code.py:122 | a number's decimal numeral is a non-empty string of digits, one digit long exactly for n < 10 |
| Format.DecimalRoundTrip | code.py:122 | reading back the decimal numeral of n gives n |
| Format.Pad2 | code.py:122 | the {:02} field is at least two characters and starts with '-' exactly for negative numbers |
| Format.FormatTime | code.py:119-122 | the text is at least 5 characters; for 0 <= seconds < 6000 it is 5 characters with ':' in the middle; negative counts start with '-' |
| Format.ParseTime | code.py:119-122 | a well-formed MM:SS text (seconds field below 60) reads back to a count in [0, 6000) |
| Format.FormatTimeRoundTrip | code.py:119-122 | for 0 <= seconds < 6000 the text parses back to the same count, i.e. minutes*60 + seconds with seconds < 60 |
| Format.ParseTimeRoundTrip | code.py:119-122 | every well-formed MM:SS text is exactly what format_time prints for its value (with FormatTimeRoundTrip: an exact inverse on [0, 6000)) |
| Format.FormatTimeExamples | code.py:119-122 | 0 prints "00:00", 125 prints "02:05", 3599 prints "59:59", and -5 prints "-1:55" |
| Progress.Steps | code.py:111 | the lit-segment count is in [0, 120] while the fraction done is in [0, 1]; it is 0 for nothing done and 120 for all done |
| Progress.StepsMonotone | code.py:208 | as remaining decreases, the number of lit segments never decreases |
| Progress.ArcFill | code.py:116-117 | the ring always has 120 segment colours |
| Progress.ArcFillLit | code.py:116-117 | segment i is lit, in the session colour, iff i < steps, and black otherwise; the lit count is steps clamped to [0, 120] |
| Progress.Render | code.py:206-208 | after a redraw: the session label is the kind's name; segment i holds the kind's arc colour iff i < Steps and is black otherwise; the ring lights exactly Steps segments (0 <= remaining <= duration); the time text parses back to remaining (0 <= remaining < 6000) |
| Timing.Initial | code.py:157-176 | start-up state: a paused work session at cycle position 0 with the command cursor at 0 |
| Timing.NextCommand | code.py:131 | the command run next is the one at the cursor: positions 0, 1, 2, 3 name "start timer", "pause timer", "start short break", "start long break", each at exactly one position |
| Timing.Dispatch | code.py:129-155 | a dispatch keeps both cursors in range and moves the command cursor to (i+1) mod 4; it never changes session_index; the timer is active afterwards unless the command was "pause timer" |
| Timing.StartKeepsSession | code.py:134-140 | "start timer" keeps the kind and duration and only sets active and re-anchors session_start at now |
| Timing.PauseChangesOnlyActive | code.py:141-142 | "pause timer" clears the active flag; kind, duration, session_start and session_index stay as they were |
| Timing.ManualBreakKeepsCycle | code.py:143-152 | "start short break" / "start long break" load BREAK/300 s or LONG/900 s, set active and session_start = now, and leave session_index unchanged |
| Timing.BreakOverrideResumesCycle | code.py:143-152 | when a manual break runs out, natural expiry moves to the cycle entry after the position held before the break |
| Timing.CommandCursorWraps | code.py:126-155 | four dispatches in a row run the commands at cursor positions i, i+1, i+2, i+3 (mod 4), in list order, and bring the cursor back to where it started |
| Timing.Fires | code.py:183 | the debounce condition: a quiet reading never fires, a reading 1 s or less after the last accepted one never fires, and a loud reading more than 1 s later always fires |
| Timing.Trigger | code.py:183-185 | a loud reading more than 1 s after the last accepted one runs the next command (Dispatch) and stamps last_sound_time with now, so the command cursor moves by one; otherwise nothing changes |
| Timing.TwoLoudReadings | code.py:183-185 | two loud readings more than 1 s apart run commands at two consecutive cursor positions; 1 s apart or closer, only the first runs a command |
| Timing.Remaining | code.py:188-189 | with the clock past the anchor, remaining never exceeds the session duration |
| Timing.Rollover | code.py:193-197 | natural expiry sets session_index to (i+1) mod 8, the kind to session_cycle at that index, and the duration to that kind's; remaining is the full duration, which is positive |
| Timing.Countdown | code.py:187-201 | after the countdown an active timer always has remaining > 0; cursors, last_sound_time and last_second are untouched |
| Timing.ExpiryRollsCycle | code.py:191-197 | an active session with remaining <= 0 rolls the cycle, loads the next kind and its duration, re-anchors at now, and restarts with full time |
| Timing.NoExpiryBeforeTime | code.py:191 | a session with time left is not changed by the countdown |
| Timing.PausedDrift | code.py:198-201 | a paused timer never rolls over, yet its remaining time drops by at least one per further second, because the anchor is not shifted |
| Timing.PausedRemainingGoesNegative | code.py:198-201 | a pause one second longer than the session yields remaining = -1 |
| Timing.Redraws | code.py:204-205 | a tick redraws exactly when it changes last_second; a tick that does not redraw leaves the state as the debounce gate and countdown left it |
| Timing.Step | code.py:178-209 | a tick is the debounce gate (Trigger) followed by the countdown (Countdown), with last_second set to the remaining just computed; the state stays valid; an active timer has remaining > 0; remaining does not exceed the duration; last_sound_time changes only if a command fired |
| Timing.DebounceSpacing | code.py:183-185 | over any run of ticks, accepted commands are more than 1 s apart, and the first is more than 1 s after the previous trigger |
| Timing.NoRedundantRedraw | code.py:204-209 | a second tick at the same instant without sound does not redraw |
| Timing.StartFromBoot | code.py:134-140 | from start-up, "start timer" makes the work session active with 1500 s remaining at that instant |
| Timing.WorkExpiresToShortBreak | code.py:187-197 | an active work session at cycle position 0 has 1 s left after 1499.999 s, and expires into the short break at position 1 after exactly 1500 s |
| Device.Pomodoro.constructor | code.py:157-176 | start-up state is Timing.Initial; all 120 segments are black after update_progress_arc(0, WORK) |
| Device.Pomodoro.UpdateProgressArc | code.py:110-117 | the loop rewrites every segment: afterwards the array equals ArcFill of int(percentage * 120) |
| Device.Pomodoro.SimulateVoiceCommand | code.py:129-155 | the fields after the call are Timing.Dispatch of the fields before; the labels are untouched |
| Device.Pomodoro.Listen | code.py:183-185 | the fields after the debounce gate are Timing.Trigger of the fields before |
| Device.Pomodoro.UpdateRemaining | code.py:187-201 | the fields after the countdown are Timing.Countdown of the fields before; the returned remaining is measured from the new anchor |
| Device.Pomodoro.RefreshDisplay | code.py:204-209 | the screen becomes Render(kind, remaining, duration) iff remaining differs from last_second, and is left unchanged otherwise; last_second becomes remaining |
| Device.Pomodoro.Tick | code.py:178-209 | one loop pass: the fields become Timing.Step of the old ones; an active timer never shows remaining <= 0; the screen is redrawn iff the integer second changed |

## Left out

- Display, SPI bus, GC9A01 driver and backlight set-up (code.py:15-31): hardware plumbing with no logic.
- Display groups, the background circle, the label objects and the version label (code.py:51-61, 78-93, 169-173): foreign graphics-library calls. The display is modelled as two label strings and an array of 120 colours.
- Placement of the arc segments by cosine and sine (code.py:102-108): floating-point geometry. Only their number (120) and initial black fill are kept.
- Microphone read `detect_loud_sound` (code.py:35-49): it becomes the boolean `loud` parameter of each tick. A failing read yields "not loud", which a caller passes as false.
- `time.monotonic()`, `time.sleep(0.1)` and the endless `while True` (code.py:178-179, 211): the clock reading is the `now` parameter, and one tick is modelled, not the loop.
- `print` diagnostics (code.py:48, 132).
- Device.Pomodoro.SimulateVoiceCommand: the source reads `time.monotonic()` again inside the dispatcher (code.py:140, 147, 152), slightly after the tick's `now`. The model anchors the session at the tick's `now`.
- Clock resolution: time is whole milliseconds, so the debounce compares millisecond counts; the source compares floating-point seconds.
- Progress.Steps: computes `int((1 - remaining/seconds) * 120)` exactly, as `(seconds - remaining) * 120 / seconds` truncated. The source's floating-point rounding can make it one lower at exact multiples.
- The start-up guard of "start timer" (code.py:137-139) is not a separate branch: the session kind is a closed three-valued type, and the source only ever assigns one of the three names. So the guard can never fire, and "start timer" keeps the kind and duration.
