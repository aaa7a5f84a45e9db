/**
 * The countdown session service (SessionForegroundService). The whole session
 * lives in one immutable snapshot that a once-a-second tick replaces: it
 * counts the current step's seconds down, moves to the next step, or ends the
 * session by clearing the snapshot.
 */
module CountdownSession {
  import opened Wrappers
  import opened KotlinInt
  import opened Vibration

  /** One step: its type tag and its length in whole seconds. */
  datatype StepInfo = StepInfo(stepType: string, durationSeconds: Int32)

  /** One element of the preset's "steps" array: an object with optional "type" and "durationSeconds", or a value that is not an object. */
  datatype PresetEntry = PresetStep(stepType: Option<string>, durationSeconds: Option<Int32>) | NotAnObject

  /**
   * The preset text handed to the service: blank (empty or white space), not a
   * JSON object with a "steps" array (parsing throws), or such an object.
   */
  datatype PresetText = Blank | Malformed | Preset(entries: seq<PresetEntry>)

  /** The shared snapshot of a running session. */
  datatype CountdownState = CountdownState(presetJson: PresetText, steps: seq<StepInfo>, stepIndex: nat, remainingSeconds: Int32)

  /** The step an object entry decodes to: type "zazen" and 0 seconds by default. */
  function ToStepInfo(e: PresetEntry): StepInfo
    requires e.PresetStep?
  {
    StepInfo(e.stepType.GetOr("zazen"), e.durationSeconds.GetOr(0))
  }

  /** The entries decoded one by one, in order. */
  function StepInfos(entries: seq<PresetEntry>): (r: seq<StepInfo>)
    requires forall i :: 0 <= i < |entries| ==> entries[i].PresetStep?
    ensures |r| == |entries|
    ensures forall i :: 0 <= i < |entries| ==> r[i] == ToStepInfo(entries[i])
  {
    seq(|entries|, i requires 0 <= i < |entries| => ToStepInfo(entries[i]))
  }

  /** The steps with a positive duration, in their original order. */
  function KeepPositive(steps: seq<StepInfo>): (r: seq<StepInfo>)
    ensures |r| <= |steps|
    ensures forall i :: 0 <= i < |r| ==> r[i].durationSeconds > 0
    ensures forall x :: x in r <==> x in steps && x.durationSeconds > 0
  {
    if steps == [] then []
    else if steps[0].durationSeconds > 0 then [steps[0]] + KeepPositive(steps[1..])
    else KeepPositive(steps[1..])
  }

  /** Filtering keeps the order: the kept steps of two consecutive lists are the kept steps of each, one after the other. */
  lemma {:induction false} KeepPositiveAppend(a: seq<StepInfo>, b: seq<StepInfo>)
    ensures KeepPositive(a + b) == KeepPositive(a) + KeepPositive(b)
  {
    if a != [] {
      assert (a + b)[1..] == a[1..] + b;
      KeepPositiveAppend(a[1..], b);
    } else {
      assert a + b == b;
    }
  }

  /**
   * parseSteps: the decoded steps whose duration is positive. Any failure (a
   * text that is not a preset object, an entry that is not an object) gives no
   * steps at all.
   */
  function ParseSteps(presetJson: PresetText): (steps: seq<StepInfo>)
    ensures forall i :: 0 <= i < |steps| ==> steps[i].durationSeconds > 0
    ensures !presetJson.Preset? ==> steps == []
    ensures presetJson.Preset? && (exists i :: 0 <= i < |presetJson.entries| && presetJson.entries[i].NotAnObject?) ==> steps == []
    ensures presetJson.Preset? && (forall i :: 0 <= i < |presetJson.entries| ==> presetJson.entries[i].PresetStep?) ==>
      forall x :: x in steps <==> x.durationSeconds > 0 && exists i :: 0 <= i < |presetJson.entries| && x == ToStepInfo(presetJson.entries[i])
    ensures presetJson.Preset? && (forall i :: 0 <= i < |presetJson.entries| ==> presetJson.entries[i].PresetStep?) ==>
      steps == KeepPositive(StepInfos(presetJson.entries))
  {
    match presetJson
    case Preset(entries) =>
      if forall i :: 0 <= i < |entries| ==> entries[i].PresetStep? then
        var decoded := StepInfos(entries);
        assert forall x :: x in decoded <==> exists i :: 0 <= i < |entries| && x == ToStepInfo(entries[i]) by {
          forall x | x in decoded
            ensures exists i :: 0 <= i < |entries| && x == ToStepInfo(entries[i])
          {
            var i :| 0 <= i < |decoded| && decoded[i] == x;
            assert x == ToStepInfo(entries[i]);
          }
        }
        KeepPositive(decoded)
      else []
    case _ => []
  }

  /** The state a session starts in: step 0 with its full duration left. */
  function InitialState(presetJson: PresetText): CountdownState
    requires ParseSteps(presetJson) != []
  {
    var steps := ParseSteps(presetJson);
    CountdownState(presetJson, steps, 0, steps[0].durationSeconds)
  }

  /** A running session's invariant: the index is a step, every step is positive, and between 1 and the step's length remain. */
  predicate CountdownValid(s: CountdownState) {
    && s.stepIndex < |s.steps|
    && (forall k :: 0 <= k < |s.steps| ==> s.steps[k].durationSeconds > 0)
    && 1 <= s.remainingSeconds <= s.steps[s.stepIndex].durationSeconds
  }

  /** onStepTransition: the same table as the session services', the next step always being present. */
  function OnStepTransition(finishedType: string, nextType: string): (p: Pattern)
    ensures p == TransitionPattern(finishedType, Some(nextType))
  {
    if finishedType == "preStart" && nextType == "zazen" then ThreeMedium
    else if finishedType == "zazen" && nextType == "kinhin" then TwoMedium
    else if finishedType == "kinhin" && nextType == "zazen" then ThreeMedium
    else NoPattern
  }

  /** What one tick does besides replacing the snapshot. */
  datatype TickEffect =
    | NoTick                        // the index is past the steps: nothing, and no further tick
    | CountedDown                   // one second less; next tick in a second
    | StepChanged(pattern: Pattern) // pattern played, next step; next tick in a second
    | SessionFinished               // OneLong played, the service stops

  /** The snapshot after a tick (None once the session is over) and the tick's effect. */
  datatype TickResult = TickResult(next: Option<CountdownState>, effect: TickEffect)

  /**
   * The body of the tick on a snapshot. More than one second left: one second
   * less. Otherwise the next step begins with its full length, or after the
   * last step the snapshot is cleared. A valid snapshot stays valid and keeps
   * its steps and preset.
   */
  function CountdownTick(s: CountdownState): (r: TickResult)
    ensures r.effect == NoTick <==> s.stepIndex >= |s.steps|
    ensures r.effect == CountedDown <==> s.stepIndex < |s.steps| && s.remainingSeconds > 1
    ensures r.effect.StepChanged? <==> s.stepIndex + 1 < |s.steps| && s.remainingSeconds <= 1
    ensures r.next.None? <==> r.effect == SessionFinished
    ensures r.effect == NoTick ==> r.next == Some(s)
    ensures r.next.Some? ==> r.next.value.steps == s.steps && r.next.value.presetJson == s.presetJson
    ensures r.effect == CountedDown ==>
      r.next.value.stepIndex == s.stepIndex && r.next.value.remainingSeconds == s.remainingSeconds - 1
    ensures r.effect.StepChanged? ==>
      && r.next.value.stepIndex == s.stepIndex + 1
      && r.next.value.remainingSeconds == s.steps[s.stepIndex + 1].durationSeconds
      && r.effect.pattern == TransitionPattern(s.steps[s.stepIndex].stepType, Some(s.steps[s.stepIndex + 1].stepType))
    ensures CountdownValid(s) && r.next.Some? ==> CountdownValid(r.next.value)
  {
    var i := s.stepIndex;
    if i >= |s.steps| then TickResult(Some(s), NoTick)
    else if s.remainingSeconds > 1 then
      TickResult(Some(s.(remainingSeconds := s.remainingSeconds - 1)), CountedDown)
    else if i + 1 < |s.steps| then
      var next := s.steps[i + 1];
      TickResult(Some(s.(stepIndex := i + 1, remainingSeconds := next.durationSeconds)),
                 StepChanged(OnStepTransition(s.steps[i].stepType, next.stepType)))
    else TickResult(None, SessionFinished)
  }

  /** The total length of a list of steps, in seconds. */
  function SumSeconds(steps: seq<StepInfo>): int {
    if steps == [] then 0 else steps[0].durationSeconds + SumSeconds(steps[1..])
  }

  /** Seconds until the session ends: those left in the current step and all of the later steps. */
  function SecondsLeft(s: CountdownState): int
    requires s.stepIndex < |s.steps|
  {
    s.remainingSeconds + SumSeconds(s.steps[s.stepIndex + 1..])
  }

  /** Positive steps last at least a second each. */
  lemma {:induction false} SumSecondsAtLeastCount(steps: seq<StepInfo>)
    requires forall k :: 0 <= k < |steps| ==> steps[k].durationSeconds > 0
    ensures SumSeconds(steps) >= |steps|
  {
    if steps != [] {
      SumSecondsAtLeastCount(steps[1..]);
    }
  }

  /** Every tick of a valid snapshot takes exactly one second off the session, and it ends when one second was left. */
  lemma TickTakesOneSecond(s: CountdownState)
    requires CountdownValid(s)
    ensures CountdownTick(s).next.Some? ==> SecondsLeft(CountdownTick(s).next.value) == SecondsLeft(s) - 1
    ensures CountdownTick(s).next.None? ==> SecondsLeft(s) == 1
  {
  }

  /** The snapshot after `n` ticks (None stays None). */
  function Run(s: Option<CountdownState>, n: int): Option<CountdownState>
    decreases n
  {
    if n <= 0 then s
    else match s
      case None => None
      case Some(x) => Run(CountdownTick(x).next, n - 1)
  }

  /** A valid snapshot is still running after fewer ticks than its seconds left, and is over after exactly that many. */
  lemma {:induction false} RunCountsDown(s: CountdownState, n: nat)
    requires CountdownValid(s)
    requires n <= SecondsLeft(s)
    ensures n < SecondsLeft(s) ==>
      && Run(Some(s), n).Some?
      && CountdownValid(Run(Some(s), n).value)
      && SecondsLeft(Run(Some(s), n).value) == SecondsLeft(s) - n
    ensures n == SecondsLeft(s) ==> Run(Some(s), n) == None
    decreases n
  {
    SumSecondsAtLeastCount(s.steps[s.stepIndex + 1..]);
    if n > 0 {
      TickTakesOneSecond(s);
      var next := CountdownTick(s).next;
      if next.Some? {
        RunCountsDown(next.value, n - 1);
      }
    }
  }

  /** A session started from a preset lasts exactly as many ticks as its steps have seconds. */
  lemma SessionLastsTotalSeconds(presetJson: PresetText)
    requires ParseSteps(presetJson) != []
    ensures forall n: nat :: n < SumSeconds(ParseSteps(presetJson)) ==> Run(Some(InitialState(presetJson)), n).Some?
    ensures Run(Some(InitialState(presetJson)), SumSeconds(ParseSteps(presetJson))) == None
  {
    var s := InitialState(presetJson);
    assert CountdownValid(s);
    assert SecondsLeft(s) == SumSeconds(s.steps);
    SumSecondsAtLeastCount(s.steps);
    forall n: nat | n < SumSeconds(s.steps)
      ensures Run(Some(s), n).Some?
    {
      RunCountsDown(s, n);
    }
    RunCountsDown(s, SumSeconds(s.steps));
  }

  /** A minutes-and-seconds reading of a count of seconds. */
  datatype MinSec = MinSec(mins: int, secs: int)

  /**
   * The split in buildStatus and createNotificationBuilder: Kotlin's
   * `remainingSeconds / 60` and `remainingSeconds % 60`. The two parts give
   * back the count; for a count that is not negative, the seconds lie in
   * 0..59.
   */
  function SplitMinutes(remainingSeconds: Int32): (r: MinSec)
    ensures r.mins * 60 + r.secs == remainingSeconds
    ensures remainingSeconds >= 0 ==> r.mins >= 0 && 0 <= r.secs < 60
    ensures remainingSeconds < 0 ==> r.mins <= 0 && -60 < r.secs <= 0
  {
    MinSec(TruncDiv(remainingSeconds, 60), TruncRem(remainingSeconds, 60))
  }

  /** The service's companion object: the snapshot the app reads. */
  class SessionCompanion {
    var currentState: Option<CountdownState>

    constructor()
      ensures currentState == None
    {
      currentState := None;
    }
  }

  class CountdownService {
    /** Whether `tickRunnable` is set. */
    var hasTickRunnable: bool
    const companion: SessionCompanion

    constructor(companion: SessionCompanion)
      ensures this.companion == companion && !hasTickRunnable
    {
      this.companion := companion;
      hasTickRunnable := false;
    }

    /** The service's invariant: a snapshot, when there is one, is valid and holds the steps of its own preset. */
    ghost predicate Valid()
      reads this, companion
    {
      companion.currentState.Some? ==>
        && CountdownValid(companion.currentState.value)
        && companion.currentState.value.steps == ParseSteps(companion.currentState.value.presetJson)
    }

    /**
     * onStartCommand: a missing or blank preset, or one without usable steps,
     * stops the service with nothing set. Otherwise the session starts at step
     * 0 with its full duration and the tick is scheduled.
     */
    method OnStartCommand(presetJson: Option<PresetText>) returns (started: bool)
      modifies this, companion
      ensures started <==> presetJson.Some? && !presetJson.value.Blank? && ParseSteps(presetJson.value) != []
      ensures !started ==> unchanged(this) && unchanged(companion)
      ensures started ==> companion.currentState == Some(InitialState(presetJson.value)) && hasTickRunnable && Valid()
    {
      if presetJson.None? || presetJson.value.Blank? {
        return false;
      }
      var steps := ParseSteps(presetJson.value);
      if steps == [] {
        return false;
      }
      var initialRemaining := steps[0].durationSeconds;
      companion.currentState := Some(CountdownState(presetJson.value, steps, 0, initialRemaining));
      hasTickRunnable := true;
      started := true;
    }

    /** The tick runnable: replaces the snapshot by the tick's result; the last tick also drops the runnable. */
    method Tick() returns (effect: TickEffect)
      modifies this, companion
      ensures old(companion.currentState).None? ==> effect == NoTick && unchanged(this) && unchanged(companion)
      ensures old(companion.currentState).Some? ==>
        TickResult(companion.currentState, effect) == CountdownTick(old(companion.currentState).value)
      ensures hasTickRunnable == (old(hasTickRunnable) && effect != SessionFinished)
      ensures old(Valid()) ==> Valid()
    {
      if companion.currentState.None? {
        return NoTick;
      }
      var s := companion.currentState.value;
      var result := CountdownTick(s);
      companion.currentState := result.next;
      effect := result.effect;
      if effect == SessionFinished {
        hasTickRunnable := false;
      }
    }

    /** onDestroy: the tick is cancelled and the snapshot cleared. */
    method OnDestroy()
      modifies this, companion
      ensures !hasTickRunnable && companion.currentState == None
    {
      hasTickRunnable := false;
      companion.currentState := None;
    }
  }
}
