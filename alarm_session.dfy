/**
 * The alarm-driven session service (package io.github.allanino.zazen_timer).
 * It keeps no running counter: the current step is recomputed from the step
 * list, the session start and the wall clock; one exact alarm is set for the
 * end of every step; each alarm delivers the index of the step that ended.
 * The session is persisted so that a restarted process can pick it up.
 */
module AlarmSession {
  import opened Wrappers
  import opened KotlinInt
  import opened Vibration
  import opened SessionSteps

  /** The snapshot for step `i` of a session started at `sessionStart`: it starts after all earlier steps. */
  function StepState(steps: seq<StepSpec>, sessionStart: int, i: nat): SessionState
    requires i < |steps|
  {
    SessionState(i, steps[i].stepType, sessionStart + Cumulative(steps, i), steps[i].durationMs)
  }

  /**
   * `state` is what the wall clock says at `nowMillis`: no state without steps
   * or without a start (0 stands for "no session"); otherwise the first step
   * whose end lies after now, or no state when every step has ended.
   */
  ghost predicate IsStateAt(steps: seq<StepSpec>, sessionStart: int, nowMillis: int, state: Option<SessionState>) {
    if steps == [] || sessionStart == 0 then state == None
    else match state
      case None => forall j :: 0 <= j < |steps| ==> sessionStart + EndOf(steps, j) <= nowMillis
      case Some(s) =>
        && 0 <= s.stepIndex < |steps|
        && nowMillis < sessionStart + EndOf(steps, s.stepIndex)
        && (forall j :: 0 <= j < s.stepIndex ==> sessionStart + EndOf(steps, j) <= nowMillis)
        && s == StepState(steps, sessionStart, s.stepIndex)
  }

  /** getCurrentState: walks the cumulative durations until a step ends after now. */
  method CurrentState(steps: seq<StepSpec>, sessionStart: int, nowMillis: int) returns (state: Option<SessionState>)
    ensures IsStateAt(steps, sessionStart, nowMillis, state)
  {
    if steps == [] || sessionStart == 0 {
      return None;
    }
    var cumulativeMs := 0;
    for i := 0 to |steps|
      invariant cumulativeMs == Cumulative(steps, i)
      invariant forall j :: 0 <= j < i ==> sessionStart + EndOf(steps, j) <= nowMillis
    {
      var step := steps[i];
      var stepEndMs := cumulativeMs + step.durationMs;
      var stepStartWall := sessionStart + cumulativeMs;
      if nowMillis < sessionStart + stepEndMs {
        return Some(SessionState(i, step.stepType, stepStartWall, step.durationMs));
      }
      cumulativeMs := stepEndMs;
    }
    return None;
  }

  /** The answer is determined by the inputs: two answers for the same steps, start and time agree. */
  lemma StateAtIsUnique(steps: seq<StepSpec>, sessionStart: int, nowMillis: int, a: Option<SessionState>, b: Option<SessionState>)
    requires IsStateAt(steps, sessionStart, nowMillis, a)
    requires IsStateAt(steps, sessionStart, nowMillis, b)
    ensures a == b
  {
  }

  /** With no negative durations there is no state exactly when now is at or past the end of the last step. */
  lemma NoStateIffSessionOver(steps: seq<StepSpec>, sessionStart: int, nowMillis: int, state: Option<SessionState>)
    requires NonNegativeDurations(steps)
    requires steps != [] && sessionStart != 0
    requires IsStateAt(steps, sessionStart, nowMillis, state)
    ensures state.None? <==> sessionStart + Cumulative(steps, |steps|) <= nowMillis
  {
    var last := |steps| - 1;
    assert EndOf(steps, last) == Cumulative(steps, |steps|);
    if state.Some? {
      EndsOrdered(steps, state.value.stepIndex, last);
    }
  }

  /**
   * From the session start on, whatever the signs of the durations, the state
   * found covers now: the step has begun, has not ended, and the time left in
   * it is positive and at most its duration.
   */
  lemma StateCoversNow(steps: seq<StepSpec>, sessionStart: int, nowMillis: int, state: Option<SessionState>)
    requires IsStateAt(steps, sessionStart, nowMillis, state)
    requires state.Some? && sessionStart <= nowMillis
    ensures state.value.stepStartTimeMillis <= nowMillis < state.value.stepStartTimeMillis + state.value.stepDurationMs
    ensures 0 < state.value.RemainingMs(nowMillis) <= state.value.stepDurationMs
  {
    var i := state.value.stepIndex;
    if i > 0 {
      assert sessionStart + EndOf(steps, i - 1) <= nowMillis;
    }
  }

  /**
   * The alarm for step `i` fires when the wall clock moves on: with positive
   * durations, at that instant the current state is step i + 1, or no state
   * when i is the last step.
   */
  lemma TransitionInstantMovesClock(steps: seq<StepSpec>, sessionStart: int, i: nat)
    requires PositiveDurations(steps)
    requires sessionStart != 0 && i < |steps|
    ensures i + 1 < |steps| ==> IsStateAt(steps, sessionStart, sessionStart + EndOf(steps, i), Some(StepState(steps, sessionStart, i + 1)))
    ensures i + 1 == |steps| ==> IsStateAt(steps, sessionStart, sessionStart + EndOf(steps, i), None)
  {
    var now := sessionStart + EndOf(steps, i);
    if i + 1 < |steps| {
      EndsOrdered(steps, i, i + 1);
      forall j | 0 <= j < i + 1
        ensures sessionStart + EndOf(steps, j) <= now
      {
        EndsOrdered(steps, j, i);
      }
    } else {
      forall j | 0 <= j < |steps|
        ensures sessionStart + EndOf(steps, j) <= now
      {
        EndsOrdered(steps, j, i);
      }
    }
  }

  /** The session persisted in the shared preferences: its JSON text and its start. */
  datatype StoredSession = StoredSession(json: SessionText, startMillis: int)

  /** A stored session that restoreFromPrefs accepts: present, with a non-zero start. */
  predicate Restorable(stored: Option<StoredSession>) {
    stored.Some? && stored.value.startMillis != 0
  }

  /** One scheduled transition alarm: the index of the step it ends and its trigger time on both clocks. */
  datatype Alarm = Alarm(stepIndex: nat, triggerAtWallMillis: int, triggerAtElapsedMillis: int)

  /** What a transition callback does. */
  datatype TransitionOutcome =
    | Ignored                                // stale or out-of-range index: nothing happens
    | MovedTo(pattern: Pattern, nextType: string)  // pattern played, notification now shows the next step
    | Finished(pattern: Pattern)             // pattern played, then OneLong; the session is torn down

  /** The shared preferences file "zazen_session", which outlives the process. */
  class SessionPrefs {
    var stored: Option<StoredSession>

    constructor()
      ensures stored == None
    {
      stored := None;
    }
  }

  /** The service's companion object: the session every caller in the process sees. */
  class SessionCompanion {
    var steps: seq<StepSpec>
    var sessionStartTimeMillis: int

    constructor()
      ensures steps == [] && sessionStartTimeMillis == 0
    {
      steps := [];
      sessionStartTimeMillis := 0;
    }

    /** getCurrentState, on the companion's session. */
    method GetCurrentState(nowMillis: int) returns (state: Option<SessionState>)
      ensures IsStateAt(steps, sessionStartTimeMillis, nowMillis, state)
    {
      state := CurrentState(steps, sessionStartTimeMillis, nowMillis);
    }
  }

  class AlarmSessionService {
    var steps: seq<StepSpec>
    var sessionStartTimeMillis: int
    var transitionAlarms: seq<Alarm>
    const companion: SessionCompanion
    const prefs: SessionPrefs

    constructor(companion: SessionCompanion, prefs: SessionPrefs)
      ensures this.companion == companion && this.prefs == prefs
      ensures steps == [] && sessionStartTimeMillis == 0 && transitionAlarms == []
    {
      this.companion := companion;
      this.prefs := prefs;
      steps := [];
      sessionStartTimeMillis := 0;
      transitionAlarms := [];
    }

    /** One alarm per step, in step order, each at the session start plus the steps up to and including it. */
    ghost predicate AlarmsScheduled(nowWallMillis: int, nowElapsedMillis: int)
      reads this
    {
      && |transitionAlarms| == |steps|
      && forall i :: 0 <= i < |steps| ==>
           transitionAlarms[i] == Alarm(i, sessionStartTimeMillis + EndOf(steps, i),
                                        nowElapsedMillis + (sessionStartTimeMillis + EndOf(steps, i) - nowWallMillis))
    }

    /** handleStartSession: decode, persist, publish and schedule; stop on no steps or when exact alarms are denied. */
    method HandleStartSession(json: SessionText, startMillis: int, nowWallMillis: int, nowElapsedMillis: int, exactAlarmsDenied: bool)
      returns (started: bool)
      modifies this, companion, prefs
      ensures steps == DecodedSteps(json)
      ensures started <==> steps != [] && !exactAlarmsDenied
      ensures steps == [] ==>
        && sessionStartTimeMillis == old(sessionStartTimeMillis) && transitionAlarms == old(transitionAlarms)
        && unchanged(companion) && unchanged(prefs)
      ensures steps != [] ==> sessionStartTimeMillis == startMillis
      ensures started ==>
        && prefs.stored == Some(StoredSession(json, startMillis))
        && companion.steps == steps && companion.sessionStartTimeMillis == startMillis
        && AlarmsScheduled(nowWallMillis, nowElapsedMillis)
      ensures steps != [] && exactAlarmsDenied ==>
        && prefs.stored == None && companion.steps == [] && companion.sessionStartTimeMillis == 0
        && transitionAlarms == old(transitionAlarms)
    {
      steps := ParseSessionJson(json);
      if steps == [] {
        return false;
      }
      sessionStartTimeMillis := startMillis;
      PersistSession(json, sessionStartTimeMillis);
      companion.steps := steps;
      companion.sessionStartTimeMillis := sessionStartTimeMillis;
      if exactAlarmsDenied {
        companion.steps := [];
        companion.sessionStartTimeMillis := 0;
        ClearPersistedSession();
        return false;
      }
      ScheduleTransitionAlarms(nowWallMillis, nowElapsedMillis);
      started := true;
    }

    /** The trigger loop of scheduleTransitionAlarms: replaces the alarm list with one alarm per step. */
    method ScheduleTransitionAlarms(nowWallMillis: int, nowElapsedMillis: int)
      modifies this
      ensures steps == old(steps) && sessionStartTimeMillis == old(sessionStartTimeMillis)
      ensures AlarmsScheduled(nowWallMillis, nowElapsedMillis)
    {
      transitionAlarms := [];
      var cumulativeMs := 0;
      for i := 0 to |steps|
        invariant steps == old(steps) && sessionStartTimeMillis == old(sessionStartTimeMillis)
        invariant cumulativeMs == Cumulative(steps, i)
        invariant |transitionAlarms| == i
        invariant forall k :: 0 <= k < i ==>
          transitionAlarms[k] == Alarm(k, sessionStartTimeMillis + EndOf(steps, k),
                                       nowElapsedMillis + (sessionStartTimeMillis + EndOf(steps, k) - nowWallMillis))
      {
        cumulativeMs := cumulativeMs + steps[i].durationMs;
        var triggerAtWall := sessionStartTimeMillis + cumulativeMs;
        var triggerAtElapsed := nowElapsedMillis + (triggerAtWall - nowWallMillis);
        transitionAlarms := transitionAlarms + [Alarm(i, triggerAtWall, triggerAtElapsed)];
      }
    }

    /** cancelAllScheduledAlarms: every pending alarm is cancelled and the list is emptied. */
    method CancelAllScheduledAlarms()
      modifies this
      ensures transitionAlarms == []
      ensures steps == old(steps) && sessionStartTimeMillis == old(sessionStartTimeMillis)
    {
      transitionAlarms := [];
    }

    /** persistSession: the text and the start overwrite whatever was stored. */
    method PersistSession(json: SessionText, startTimeMillis: int)
      modifies prefs
      ensures prefs.stored == Some(StoredSession(json, startTimeMillis))
    {
      prefs.stored := Some(StoredSession(json, startTimeMillis));
    }

    /** clearPersistedSession: nothing is stored afterwards. */
    method ClearPersistedSession()
      modifies prefs
      ensures prefs.stored == None
    {
      prefs.stored := None;
    }

    /** restoreFromPrefs: reload the stored session, unless nothing is stored or its start is 0. */
    method RestoreFromPrefs()
      modifies this, companion
      ensures transitionAlarms == old(transitionAlarms)
      ensures !Restorable(prefs.stored) ==> unchanged(this) && unchanged(companion)
      ensures Restorable(prefs.stored) ==>
        && steps == DecodedSteps(prefs.stored.value.json)
        && sessionStartTimeMillis == prefs.stored.value.startMillis
        && companion.steps == steps && companion.sessionStartTimeMillis == sessionStartTimeMillis
    {
      if prefs.stored.None? {
        return;
      }
      var startTime := prefs.stored.value.startMillis;
      if startTime == 0 {
        return;
      }
      steps := ParseSessionJson(prefs.stored.value.json);
      sessionStartTimeMillis := startTime;
      companion.steps := steps;
      companion.sessionStartTimeMillis := sessionStartTimeMillis;
    }

    /**
     * handleTransition: the alarm for step `stepIndex` fired. A service that
     * lost its steps first restores them. An index outside the steps is
     * ignored; the last index ends the session; any other index moves on to
     * the next step's type.
     */
    method HandleTransition(stepIndex: Int32) returns (outcome: TransitionOutcome)
      modifies this, companion, prefs
      ensures old(steps) == [] && Restorable(old(prefs.stored)) ==>
        && steps == DecodedSteps(old(prefs.stored).value.json)
        && sessionStartTimeMillis == old(prefs.stored).value.startMillis
      ensures !(old(steps) == [] && Restorable(old(prefs.stored))) ==>
        steps == old(steps) && sessionStartTimeMillis == old(sessionStartTimeMillis)
      ensures outcome == Ignored <==> stepIndex < 0 || stepIndex >= |steps|
      ensures 0 <= stepIndex < |steps| - 1 ==>
        outcome == MovedTo(TransitionPattern(steps[stepIndex].stepType, Some(steps[stepIndex + 1].stepType)),
                           steps[stepIndex + 1].stepType)
      ensures |steps| > 0 && stepIndex == |steps| - 1 ==>
        outcome == Finished(TransitionPattern(steps[stepIndex].stepType, None))
      ensures outcome.Finished? ==>
        && prefs.stored == None && transitionAlarms == []
        && companion.steps == [] && companion.sessionStartTimeMillis == 0
      ensures !outcome.Finished? ==> prefs.stored == old(prefs.stored) && transitionAlarms == old(transitionAlarms)
      ensures !outcome.Finished? && old(steps) == [] && Restorable(old(prefs.stored)) ==>
        companion.steps == steps && companion.sessionStartTimeMillis == sessionStartTimeMillis
      ensures !outcome.Finished? && !(old(steps) == [] && Restorable(old(prefs.stored))) ==> unchanged(companion)
    {
      if steps == [] {
        RestoreFromPrefs();
      }
      if steps == [] || stepIndex < 0 || stepIndex >= |steps| {
        return Ignored;
      }
      var fromType := steps[stepIndex].stepType;
      var nextIndex := stepIndex + 1;
      var toType := if nextIndex < |steps| then Some(steps[nextIndex].stepType) else None;
      var pattern := TransitionPattern(fromType, toType);
      if nextIndex >= |steps| {
        ClearPersistedSession();
        companion.steps := [];
        companion.sessionStartTimeMillis := 0;
        CancelAllScheduledAlarms();
        return Finished(pattern);
      }
      return MovedTo(pattern, toType.value);
    }

    /** onDestroy: cancel the alarms, clear the companion's session and the stored one. */
    method OnDestroy()
      modifies this, companion, prefs
      ensures transitionAlarms == [] && steps == old(steps) && sessionStartTimeMillis == old(sessionStartTimeMillis)
      ensures companion.steps == [] && companion.sessionStartTimeMillis == 0
      ensures prefs.stored == None
    {
      CancelAllScheduledAlarms();
      companion.steps := [];
      companion.sessionStartTimeMillis := 0;
      ClearPersistedSession();
    }
  }

  /**
   * A session survives the process: one service starts it, a new service
   * sharing only the preferences restores it, and both companions report the
   * same state at any instant. A start that failed leaves nothing to restore,
   * and both report no session.
   */
  method RestartRestoresSession(json: SessionText, startMillis: int, nowWallMillis: int, nowElapsedMillis: int,
                                exactAlarmsDenied: bool, nowMillis: int)
    returns (started: bool, before: Option<SessionState>, after: Option<SessionState>)
    ensures started <==> DecodedSteps(json) != [] && !exactAlarmsDenied
    ensures started ==> IsStateAt(DecodedSteps(json), startMillis, nowMillis, before)
    ensures !started ==> before.None?
    ensures after == before
  {
    var prefs := new SessionPrefs();
    var firstCompanion := new SessionCompanion();
    var first := new AlarmSessionService(firstCompanion, prefs);
    started := first.HandleStartSession(json, startMillis, nowWallMillis, nowElapsedMillis, exactAlarmsDenied);
    before := first.companion.GetCurrentState(nowMillis);
    var secondCompanion := new SessionCompanion();
    var second := new AlarmSessionService(secondCompanion, prefs);
    second.RestoreFromPrefs();
    after := second.companion.GetCurrentState(nowMillis);
    StateAtIsUnique(first.companion.steps, first.companion.sessionStartTimeMillis, nowMillis, before, after);
  }
}
