/**
 * What the two session services (the alarm-driven one and the polling one)
 * share: the step record, the snapshot of the current step that the app
 * reads, and the decoding of the session's JSON text into steps.
 */
module SessionSteps {
  import opened Wrappers
  import opened KotlinInt

  /** One step of a session: its type tag ("preStart", "zazen", "kinhin" or any other text the app sends) and its length in milliseconds. */
  datatype StepSpec = StepSpec(stepType: string, durationMs: int)

  /** The snapshot of the current step that the app reads. */
  datatype SessionState = SessionState(stepIndex: int, stepType: string, stepStartTimeMillis: int, stepDurationMs: int)
  {
    /** The time left in the step at `nowMillis`: its end minus now, or zero once the end has passed. */
    function RemainingMs(nowMillis: int): (r: int)
      ensures r >= 0
      ensures r >= stepStartTimeMillis + stepDurationMs - nowMillis
      ensures r == 0 || r == stepStartTimeMillis + stepDurationMs - nowMillis
    {
      var left := stepStartTimeMillis + stepDurationMs - nowMillis;
      if left < 0 then 0 else left
    }
  }

  /**
   * One element of the session's JSON array as the decoder meets it: an object
   * whose members "t" and "d", where present, read as a string and as a
   * Kotlin Int, or a value that is not an object (reading it throws).
   */
  datatype StepEntry = StepObject(t: Option<string>, d: Option<Int32>) | NotAnObject

  /** The session's JSON text: not an array at all (parsing throws), or an array of entries. */
  datatype SessionText = NotAnArray | JsonArray(entries: seq<StepEntry>)

  /** The step an object entry decodes to: type "zazen" and 0 seconds by default, seconds widened to milliseconds. */
  function ToStep(e: StepEntry): StepSpec
    requires e.StepObject?
  {
    StepSpec(e.t.GetOr("zazen"), e.d.GetOr(0) * 1000)
  }

  /** How many entries, from the front, are objects: the decoder reaches the entry at this index and throws there. */
  function ObjectPrefixLength(entries: seq<StepEntry>): (n: nat)
    ensures n <= |entries|
    ensures forall i :: 0 <= i < n ==> entries[i].StepObject?
    ensures n < |entries| ==> entries[n].NotAnObject?
  {
    if entries == [] || entries[0].NotAnObject? then 0 else 1 + ObjectPrefixLength(entries[1..])
  }

  /**
   * The steps decoded from the session text. A text that is not an array gives
   * no steps. Otherwise step i comes from entry i, and the list stops at the
   * first entry that is not an object: the exception is swallowed and the
   * steps decoded so far are kept. No step is dropped for its duration.
   */
  function DecodedSteps(json: SessionText): (steps: seq<StepSpec>)
    ensures json.NotAnArray? ==> steps == []
    ensures json.JsonArray? ==> |steps| <= |json.entries|
    ensures json.JsonArray? ==> forall i :: 0 <= i < |steps| ==> json.entries[i].StepObject? && steps[i] == ToStep(json.entries[i])
    ensures json.JsonArray? && |steps| < |json.entries| ==> json.entries[|steps|].NotAnObject?
  {
    match json
    case NotAnArray => []
    case JsonArray(entries) =>
      var n := ObjectPrefixLength(entries);
      seq(n, i requires 0 <= i < n => ToStep(entries[i]))
  }

  /** parseSessionJson: walks the array, appending one step per entry, until the end or the first entry that throws. */
  method ParseSessionJson(json: SessionText) returns (steps: seq<StepSpec>)
    ensures steps == DecodedSteps(json)
  {
    steps := [];
    if json.NotAnArray? {
      return;
    }
    var entries := json.entries;
    for i := 0 to |entries|
      invariant |steps| == i
      invariant forall k :: 0 <= k < i ==> entries[k].StepObject? && steps[k] == ToStep(entries[k])
    {
      var entry := entries[i];
      if entry.NotAnObject? {
        return;
      }
      steps := steps + [ToStep(entry)];
    }
  }

  /** The total length of the first `k` steps. */
  function Cumulative(steps: seq<StepSpec>, k: nat): int
    requires k <= |steps|
  {
    if k == 0 then 0 else Cumulative(steps, k - 1) + steps[k - 1].durationMs
  }

  /** Where step `i` ends, measured from the session start. */
  function EndOf(steps: seq<StepSpec>, i: nat): int
    requires i < |steps|
  {
    Cumulative(steps, i + 1)
  }

  /** No step has a negative duration. */
  predicate NonNegativeDurations(steps: seq<StepSpec>) {
    forall k :: 0 <= k < |steps| ==> steps[k].durationMs >= 0
  }

  /** Every step has a positive duration. */
  predicate PositiveDurations(steps: seq<StepSpec>) {
    forall k :: 0 <= k < |steps| ==> steps[k].durationMs > 0
  }

  /** With no negative durations, later steps never end earlier; with positive durations they end strictly later. */
  lemma {:induction false} EndsOrdered(steps: seq<StepSpec>, i: nat, j: nat)
    requires NonNegativeDurations(steps)
    requires i <= j < |steps|
    ensures EndOf(steps, i) <= EndOf(steps, j)
    ensures PositiveDurations(steps) && i < j ==> EndOf(steps, i) < EndOf(steps, j)
  {
    if i < j {
      EndsOrdered(steps, i, j - 1);
      assert EndOf(steps, j) == EndOf(steps, j - 1) + steps[j].durationMs;
    }
  }
}
