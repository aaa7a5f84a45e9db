# Zazen timer: session timeline model

A Dafny model of the session-tracking core of the Zazen timer Android app. A
session is an ordered list of steps; each step has a type tag (`preStart`,
`zazen`, `kinhin`, or any other text) and a duration. The repository holds
three versions of the service that runs a session, and each has its own
module here:

- `AlarmSession` (`io/github/allanino/zazen_timer/SessionService.kt`) keeps no
  counter. The current step is recomputed from the step list, the session
  start and "now". One exact alarm is set for the end of every step. Each
  alarm delivers the index of the step that just ended. The session is
  persisted in shared preferences so that a restarted process can restore it.
- `PollingSession` (`com/example/zazen_timer/SessionService.kt`) keeps the
  current step index and the time that step started. A check runs every 500 ms
  and moves to the next step once the current one has run its length.
- `CountdownSession` (`com/example/zazen_timer/SessionForegroundService.kt`)
  keeps one immutable snapshot. A once-a-second tick counts it down, moves it
  to the next step, or clears it at the end.

All three consult the same table (`Vibration`) to pick the vibration pattern
for a step change. `SessionSteps` holds what the two `SessionService` files
share: the step record, the snapshot with its `remainingMs`, and the JSON
decoding. `Wrappers` gives `Option` for Kotlin's nullable types. `KotlinInt`
gives Kotlin's 32-bit `Int` and its division, which truncates toward zero.

Objects whose fields the source updates in place are classes. This covers the
three services, their companion objects and the shared preferences file.
Their methods are proved against specifications of the new state. Pure logic
is written as functions and lemmas. JSON input appears in already-decoded
form: an array of entries, where each entry is either an object with optional
members or a value that is not an object. The clocks (`System.currentTimeMillis`, `SystemClock.elapsedRealtime`) and the
`canScheduleExactAlarms` answer are parameters.

Points where the code behaves differently from what a reader might expect (the model follows the code):

- Neither `SessionService` drops steps whose duration is zero or negative. Only
  the foreground service drops them (`durationSeconds > 0`).
- In the alarm-based `SessionService` (package `io.github.allanino.zazen_timer`),
  a session start of 0 means "no session": a session that started at time 0
  has no current state. The polling `SessionService` has no such sentinel and
  publishes step 0 for a session that started at 0.
- If now is before the session start, the first step's remaining time is
  larger than its duration. The value is not clamped from above.
- With no negative durations the trigger instants never decrease. They
  strictly increase exactly when every step after the first has a positive
  duration. Negative durations are accepted, and with one the instants can
  decrease.
- A transition callback is not idempotent within one service instance. A second
  call with the same valid index plays its pattern again. A call is ignored
  only if its index is out of range, or if the service lost its steps and
  nothing is stored.
- At the end of a session the table is asked with no next type, and it gives
  no pattern. The one long pulse is played separately.

## Model

| member | source | states |
|---|---|---|
| `Vibration.TransitionPattern` | android/app/src/main/kotlin/io/github/allanino/zazen_timer/SessionService.kt:199-208 | Three pulses exactly when zazen follows preStart or kinhin. Two pulses exactly when kinhin follows zazen. No pattern otherwise, including at the session end. A pattern is only ever played for a change of type. The same table is at com/example/.../SessionService.kt:110-119. |
| `SessionSteps.SessionState.RemainingMs` | android/app/src/main/kotlin/io/github/allanino/zazen_timer/SessionService.kt:361-362 | The time left is never negative. It equals the step's end minus now whenever that is not negative, and 0 otherwise. |
| `SessionSteps.ObjectPrefixLength` | android/app/src/main/kotlin/io/github/allanino/zazen_timer/SessionService.kt:176-186 | The decoding loop reaches this entry and throws there. Every entry before it is an object, and the entry itself (if any) is not. |
| `SessionSteps.DecodedSteps` | android/app/src/main/kotlin/io/github/allanino/zazen_timer/SessionService.kt:174-188 | A text that is not an array gives no steps. Otherwise step i is entry i with the defaults "zazen" and 0 s, in milliseconds. The list stops exactly at the first non-object entry, and the steps decoded before it are kept. |
| `SessionSteps.ParseSessionJson` | android/app/src/main/kotlin/io/github/allanino/zazen_timer/SessionService.kt:174-188 | The loop with its swallowed exception returns exactly the decoded steps. |
| `SessionSteps.EndsOrdered` | android/app/src/main/kotlin/io/github/allanino/zazen_timer/SessionService.kt:106-109 | With no negative durations, cumulative step ends (the alarm instants) never decrease. With positive durations they strictly increase. |
| `AlarmSession.CurrentState` | android/app/src/main/kotlin/io/github/allanino/zazen_timer/SessionService.kt:327-347 | No state without steps or with start 0. Otherwise the result is the first step whose end (start plus cumulative durations) is after now. Its start is the session start plus all earlier durations, and it carries that step's duration and type. There is no state when every step has ended. |
| `AlarmSession.SessionCompanion.GetCurrentState` | android/app/src/main/kotlin/io/github/allanino/zazen_timer/SessionService.kt:323-330 | Applies the same characterisation to the companion's steps and start. It reads them and changes nothing. |
| `AlarmSession.StateAtIsUnique` | android/app/src/main/kotlin/io/github/allanino/zazen_timer/SessionService.kt:327-347 | The characterisation allows one answer only. Recomputing with the same inputs gives the same state. |
| `AlarmSession.NoStateIffSessionOver` | android/app/src/main/kotlin/io/github/allanino/zazen_timer/SessionService.kt:336-346 | With no negative durations, there is no state exactly when now is at or past the start plus the total duration. |
| `AlarmSession.StateCoversNow` | android/app/src/main/kotlin/io/github/allanino/zazen_timer/SessionService.kt:334-342 | From the start on, whatever the signs of the durations, the state found has begun and not ended. Its remaining time is in (0, duration]. |
| `AlarmSession.TransitionInstantMovesClock` | android/app/src/main/kotlin/io/github/allanino/zazen_timer/SessionService.kt:106-109 | With positive durations, at alarm i's instant the clock reports step i+1. For the last step it reports no state. |
| `AlarmSession.SessionPrefs.constructor` | android/app/src/main/kotlin/io/github/allanino/zazen_timer/SessionService.kt:34 | Stands for the preferences file "zazen_session" with nothing stored. |
| `AlarmSession.SessionCompanion.constructor` | android/app/src/main/kotlin/io/github/allanino/zazen_timer/SessionService.kt:323-325 | The companion starts with no steps and start 0. |
| `AlarmSession.AlarmSessionService.constructor` | android/app/src/main/kotlin/io/github/allanino/zazen_timer/SessionService.kt:23-25 | A new instance has no steps, start 0 and no alarms. |
| `AlarmSession.AlarmSessionService.HandleStartSession` | android/app/src/main/kotlin/io/github/allanino/zazen_timer/SessionService.kt:54-77 | No decoded steps: only the steps field changes. Otherwise the start is set, the session is persisted and published, and one alarm per step is scheduled. When exact alarms are denied, the companion and the store are cleared instead. |
| `AlarmSession.AlarmSessionService.ScheduleTransitionAlarms` | android/app/src/main/kotlin/io/github/allanino/zazen_timer/SessionService.kt:102-133 | Exactly one alarm per step, in order. Alarm i is for step i at the start plus durations 0..i. Its elapsed-clock time has the same offset from now. |
| `AlarmSession.AlarmSessionService.CancelAllScheduledAlarms` | android/app/src/main/kotlin/io/github/allanino/zazen_timer/SessionService.kt:135-140 | The alarm list is empty afterwards. |
| `AlarmSession.AlarmSessionService.PersistSession` | android/app/src/main/kotlin/io/github/allanino/zazen_timer/SessionService.kt:142-147 | Text and start overwrite what was stored. |
| `AlarmSession.AlarmSessionService.ClearPersistedSession` | android/app/src/main/kotlin/io/github/allanino/zazen_timer/SessionService.kt:149-154 | Nothing is stored afterwards. |
| `AlarmSession.AlarmSessionService.RestoreFromPrefs` | android/app/src/main/kotlin/io/github/allanino/zazen_timer/SessionService.kt:156-164 | Nothing changes if nothing is stored or the start is 0. Otherwise steps and start are the decoded stored ones and are published to the companion, so a persisted session restores the same steps and start. |
| `AlarmSession.RestartRestoresSession` | android/app/src/main/kotlin/io/github/allanino/zazen_timer/SessionService.kt:142-164 | A session started by one service and restored by a new service sharing only the stored preferences reports the same state at every instant; a failed start leaves both reporting no session. |
| `AlarmSession.AlarmSessionService.HandleTransition` | android/app/src/main/kotlin/io/github/allanino/zazen_timer/SessionService.kt:79-100 | A service without steps first restores them. An index outside the steps is ignored and nothing changes. The last index plays the end, clears the store and the companion, and cancels the alarms. Any other index moves on with the table's pattern and the next step's type. |
| `AlarmSession.AlarmSessionService.OnDestroy` | android/app/src/main/kotlin/io/github/allanino/zazen_timer/SessionService.kt:166-172 | Alarms, the companion's session and the stored session are all cleared. |
| `PollingSession.SessionCompanion.constructor` | android/app/src/main/kotlin/com/example/zazen_timer/SessionService.kt:244 | The companion starts with no snapshot. |
| `PollingSession.PollingSessionService.constructor` | android/app/src/main/kotlin/com/example/zazen_timer/SessionService.kt:25-28 | No steps, start 0, index 0, step start 0; the invariant holds when the companion shows no session. |
| `PollingSession.PollingSessionService.UpdateStateForFlutter` | android/app/src/main/kotlin/com/example/zazen_timer/SessionService.kt:164-172 | If the index names a step, the snapshot mirrors it. Otherwise the snapshot is unchanged. |
| `PollingSession.PollingSessionService.ClearStateForFlutter` | android/app/src/main/kotlin/com/example/zazen_timer/SessionService.kt:174-176 | The snapshot is cleared. |
| `PollingSession.PollingSessionService.OnStartCommand` | android/app/src/main/kotlin/com/example/zazen_timer/SessionService.kt:35-50 | A missing text reads as "[]". With no steps the service stops and nothing else changes. Otherwise index 0 and step start equal the session start (now), the snapshot shows step 0, and the invariant holds. |
| `PollingSession.PollingSessionService.Tick` | android/app/src/main/kotlin/com/example/zazen_timer/SessionService.kt:51-72 | Before the step's end nothing changes. At or after it, with a next step, the index goes up by exactly 1, the step start becomes the tick time, and the snapshot mirrors the new step. After the last step the snapshot is cleared. It keeps the invariant: the index is in range, the snapshot mirrors the current step, and each step starts no earlier than the wall-clock schedule. |
| `PollingSession.PollingSessionService.OnDestroy` | android/app/src/main/kotlin/com/example/zazen_timer/SessionService.kt:78-83 | The snapshot is cleared and the invariant kept. |
| `CountdownSession.KeepPositive` | android/app/src/main/kotlin/com/example/zazen_timer/SessionForegroundService.kt:85 | Keeps exactly the steps whose duration is positive. |
| `CountdownSession.KeepPositiveAppend` | android/app/src/main/kotlin/com/example/zazen_timer/SessionForegroundService.kt:79-85 | The filter keeps the input order. |
| `CountdownSession.ParseSteps` | android/app/src/main/kotlin/com/example/zazen_timer/SessionForegroundService.kt:75-89 | Every kept step is positive. Any parse failure gives no steps. Otherwise the result is the entries decoded in order (defaults "zazen", 0) with the non-positive ones filtered out: every positive entry is kept once, in its place, and a step is kept exactly when it is the decoded form of an entry with a positive duration. |
| `CountdownSession.OnStepTransition` | android/app/src/main/kotlin/com/example/zazen_timer/SessionForegroundService.kt:138-145 | Agrees with the session services' table for every pair. |
| `CountdownSession.CountdownTick` | android/app/src/main/kotlin/com/example/zazen_timer/SessionForegroundService.kt:101-132 | More than 1 s left: exactly one second less, same step. Otherwise with a next step: index+1 with the next step's full duration and the table's pattern. After the last step: no snapshot. Steps and preset never change, and a valid snapshot (index in range, 1 ≤ remaining ≤ duration) stays valid. |
| `CountdownSession.SumSecondsAtLeastCount` | android/app/src/main/kotlin/com/example/zazen_timer/SessionForegroundService.kt:85 | Kept steps last at least one second each. |
| `CountdownSession.TickTakesOneSecond` | android/app/src/main/kotlin/com/example/zazen_timer/SessionForegroundService.kt:107-123 | Each tick of a valid snapshot takes exactly one second off the time left in the session. The session ends only when one second was left. |
| `CountdownSession.RunCountsDown` | android/app/src/main/kotlin/com/example/zazen_timer/SessionForegroundService.kt:100-135 | A valid snapshot is still running, and valid, after fewer ticks than its seconds left. It is over after exactly that many. |
| `CountdownSession.SessionLastsTotalSeconds` | android/app/src/main/kotlin/com/example/zazen_timer/SessionForegroundService.kt:53-123 | A started session runs for exactly as many ticks as the sum of its step durations, and then ends. |
| `CountdownSession.SplitMinutes` | android/app/src/main/kotlin/com/example/zazen_timer/SessionForegroundService.kt:166-169 | mins·60 + secs = remainingSeconds. For a count that is not negative, 0 ≤ secs < 60. This is Kotlin's truncating `/` and `%`. The same split is at lines 184-186. |
| `CountdownSession.SessionCompanion.constructor` | android/app/src/main/kotlin/com/example/zazen_timer/SessionForegroundService.kt:224-225 | The companion starts with no snapshot. |
| `CountdownSession.CountdownService.constructor` | android/app/src/main/kotlin/com/example/zazen_timer/SessionForegroundService.kt:21 | No tick runnable. |
| `CountdownSession.CountdownService.OnStartCommand` | android/app/src/main/kotlin/com/example/zazen_timer/SessionForegroundService.kt:37-73 | A missing or blank preset, or one without steps, stops the service with nothing changed. Otherwise the snapshot is step 0 with that step's full duration, and the tick is scheduled. |
| `CountdownSession.CountdownService.Tick` | android/app/src/main/kotlin/com/example/zazen_timer/SessionForegroundService.kt:100-135 | No snapshot: nothing happens. Otherwise the snapshot is replaced by the tick's result. The runnable is dropped at the end. The invariant is kept: while a snapshot exists, its index is in range, 1 ≤ remaining, and its steps are its preset's. |
| `CountdownSession.CountdownService.OnDestroy` | android/app/src/main/kotlin/com/example/zazen_timer/SessionForegroundService.kt:207-213 | No tick runnable and no snapshot. |

## Left out

- Notifications, notification channels, foreground-service start and stop, `OngoingActivity`, resource strings, `notificationTitleFor`, `getStepLabel` and `String.format`: these are UI rendering. Only the minutes/seconds split is kept.
- Vibration hardware: `getVibrator`, `hasVibrator`, the waveforms, and all of `HapticHelper.kt`. The model returns the chosen pattern and does not model a device without a vibrator.
- `AlarmManager`, `PendingIntent` and `Handler`: the list of alarms stands for `transitionPendingIntents`. Alarm delivery, firing late and replacing a pending intent belong to the OS. A tick or a transition callback is a method call, and whether the check is posted again is read off its outcome.
- `onStartCommand` of `io/github/.../SessionService.kt` (lines 38-52): it only routes an intent to the two handlers modelled here. A missing index becomes -1, which `HandleTransition` ignores.
- `intent(...)` helpers, `onBind`, both `MainActivity.kt` files and `build.gradle.kts`: these are platform glue.
- The JSON library: decoding is modelled by its result. `optString` and `optInt` coercions of non-string or non-number values are folded into the decoded optional members.
- The asynchronous `apply()` of shared preferences: writes are immediate.
- Concurrency: the `@Volatile` snapshot and reads from other threads.
- 64-bit `Long` overflow of timestamps and cumulative durations: arithmetic is unbounded. A duration is at most 2^31 s.
- `PollingSession.PollingSessionService.OnStartCommand`: it does not ensure the invariant after a failed start. There, `steps` becomes empty while an earlier session's snapshot stays published until `onDestroy` runs, which the source does as well.
- `AlarmSession.NoStateIffSessionOver`: it requires non-negative durations, because the code does not reject negative ones and then the claim is false. `EndsOrdered` and `TransitionInstantMovesClock` have the same or a positive-duration precondition.
