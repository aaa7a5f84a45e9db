/**
 * The polling session service (package com.example.zazen_timer, SessionService).
 * It keeps a live counter: the index of the current step and the time that
 * step started. A check runs every 500 ms and moves to the next step once the
 * current one has run its length; the next step starts at the time of that
 * check, not at the scheduled end of the previous one.
 */
module PollingSession {
  import opened Wrappers
  import opened Vibration
  import opened SessionSteps

  /** What one run of the periodic check does. */
  datatype TickOutcome =
    | NoStep                    // no step at the current index: the check is not posted again
    | Waiting                   // the step has not run its length yet: checked again later
    | Advanced(pattern: Pattern)  // pattern played, the next step is current, checked again later
    | Finished(pattern: Pattern)  // pattern played, then OneLong; the service stops

  /** The service's companion object: the snapshot the app reads. */
  class SessionCompanion {
    var currentState: Option<SessionState>

    constructor()
      ensures currentState == None
    {
      currentState := None;
    }
  }

  class PollingSessionService {
    var steps: seq<StepSpec>
    var sessionStartTimeMillis: int
    var currentStepIndex: int
    var stepStartTimeMillis: int
    const companion: SessionCompanion

    constructor(companion: SessionCompanion)
      ensures this.companion == companion
      ensures steps == [] && sessionStartTimeMillis == 0 && currentStepIndex == 0 && stepStartTimeMillis == 0
      ensures companion.currentState == None ==> Valid()
    {
      this.companion := companion;
      steps := [];
      sessionStartTimeMillis := 0;
      currentStepIndex := 0;
      stepStartTimeMillis := 0;
    }

    /** The snapshot of the current step. */
    ghost function CurrentStepState(): SessionState
      reads this
      requires 0 <= currentStepIndex < |steps|
    {
      SessionState(currentStepIndex, steps[currentStepIndex].stepType, stepStartTimeMillis, steps[currentStepIndex].durationMs)
    }

    /**
     * The service's invariant: during a session the index is a step of it and
     * that step started no earlier than the wall-clock schedule says (the
     * session start plus all earlier steps); whenever the app sees a snapshot,
     * it describes the current step.
     */
    ghost predicate Valid()
      reads this, companion
    {
      && 0 <= currentStepIndex
      && (steps != [] ==>
            && currentStepIndex < |steps|
            && sessionStartTimeMillis + Cumulative(steps, currentStepIndex) <= stepStartTimeMillis)
      && (companion.currentState.Some? ==>
            currentStepIndex < |steps| && companion.currentState.value == CurrentStepState())
    }

    /** updateStateForFlutter: publish the current step, if the index names one. */
    method UpdateStateForFlutter()
      modifies companion
      ensures 0 <= currentStepIndex < |steps| ==> companion.currentState == Some(CurrentStepState())
      ensures !(0 <= currentStepIndex < |steps|) ==> companion.currentState == old(companion.currentState)
    {
      if !(0 <= currentStepIndex < |steps|) {
        return;
      }
      var step := steps[currentStepIndex];
      companion.currentState := Some(SessionState(currentStepIndex, step.stepType, stepStartTimeMillis, step.durationMs));
    }

    /** clearStateForFlutter: the app sees no session. */
    method ClearStateForFlutter()
      modifies companion
      ensures companion.currentState == None
    {
      companion.currentState := None;
    }

    /**
     * onStartCommand: decode the session (a missing text reads as "[]"); with
     * no steps the service stops and nothing else is set; otherwise step 0
     * starts now and is published.
     */
    method OnStartCommand(session: Option<SessionText>, nowMillis: int) returns (started: bool)
      modifies this, companion
      ensures steps == DecodedSteps(session.GetOr(JsonArray([])))
      ensures started <==> steps != []
      ensures !started ==>
        && sessionStartTimeMillis == old(sessionStartTimeMillis) && currentStepIndex == old(currentStepIndex)
        && stepStartTimeMillis == old(stepStartTimeMillis) && unchanged(companion)
      ensures started ==>
        && sessionStartTimeMillis == nowMillis && currentStepIndex == 0 && stepStartTimeMillis == nowMillis
        && companion.currentState == Some(SessionState(0, steps[0].stepType, nowMillis, steps[0].durationMs))
        && Valid()
    {
      steps := ParseSessionJson(session.GetOr(JsonArray([])));
      if steps == [] {
        return false;
      }
      sessionStartTimeMillis := nowMillis;
      currentStepIndex := 0;
      stepStartTimeMillis := sessionStartTimeMillis;
      UpdateStateForFlutter();
      started := true;
    }

    /**
     * One run of the check at `nowMillis`. Before the current step's end
     * nothing changes; at or after it the transition pattern is chosen and
     * either the next step becomes current, starting now, or, after the last
     * step, the snapshot is cleared.
     */
    method Tick(nowMillis: int) returns (outcome: TickOutcome)
      modifies this, companion
      ensures steps == old(steps) && sessionStartTimeMillis == old(sessionStartTimeMillis)
      ensures outcome == NoStep <==> !(0 <= old(currentStepIndex) < |steps|)
      ensures outcome == Waiting <==>
        0 <= old(currentStepIndex) < |steps| && nowMillis < old(stepStartTimeMillis) + steps[old(currentStepIndex)].durationMs
      ensures outcome.NoStep? || outcome.Waiting? ==>
        currentStepIndex == old(currentStepIndex) && stepStartTimeMillis == old(stepStartTimeMillis) && unchanged(companion)
      ensures outcome.Advanced? <==>
        0 <= old(currentStepIndex) && old(currentStepIndex) + 1 < |steps|
        && nowMillis >= old(stepStartTimeMillis) + steps[old(currentStepIndex)].durationMs
      ensures outcome.Advanced? ==>
        && currentStepIndex == old(currentStepIndex) + 1 && stepStartTimeMillis == nowMillis
        && outcome.pattern == TransitionPattern(steps[old(currentStepIndex)].stepType, Some(steps[currentStepIndex].stepType))
        && companion.currentState == Some(CurrentStepState())
      ensures outcome.Finished? ==>
        && currentStepIndex == old(currentStepIndex) == |steps| - 1 && stepStartTimeMillis == old(stepStartTimeMillis)
        && outcome.pattern == TransitionPattern(steps[currentStepIndex].stepType, None)
        && companion.currentState == None
      ensures old(Valid()) ==> Valid()
    {
      if !(0 <= currentStepIndex < |steps|) {
        return NoStep;
      }
      var step := steps[currentStepIndex];
      var stepEndTime := stepStartTimeMillis + step.durationMs;
      if nowMillis >= stepEndTime {
        var nextIndex := currentStepIndex + 1;
        var pattern := TransitionPattern(step.stepType, if nextIndex < |steps| then Some(steps[nextIndex].stepType) else None);
        if nextIndex >= |steps| {
          ClearStateForFlutter();
          return Finished(pattern);
        }
        currentStepIndex := nextIndex;
        stepStartTimeMillis := nowMillis;
        UpdateStateForFlutter();
        return Advanced(pattern);
      }
      return Waiting;
    }

    /** onDestroy: the app sees no session (cancelling the periodic check is not modelled). */
    method OnDestroy()
      modifies companion
      ensures companion.currentState == None
      ensures old(Valid()) ==> Valid()
    {
      ClearStateForFlutter();
    }
  }
}
