/**
 * The decision table that every variant of the session service consults when
 * one step ends: which vibration pattern marks the change from the finished
 * step's type to the next step's type. The patterns themselves are handed to
 * the vibration hardware; here they are only named.
 */
module Vibration {
  import opened Wrappers

  /** The vibration patterns the services can request. */
  datatype Pattern =
    | NoPattern    // nothing is played
    | ThreeMedium  // three medium pulses (waveform 0, 100, 200, 100, 200, 100)
    | TwoMedium    // two medium pulses (waveform 0, 100, 200, 100)
    | OneLong      // one 300 ms pulse, played when the whole session ends

  /**
   * The pattern for the transition from a step of type `fromType` to a step of
   * type `toType`; `toType` is None when the finished step was the last one.
   * Entering zazen from the waiting period or from kinhin gives three pulses,
   * entering kinhin from zazen gives two, and every other pair gives nothing.
   */
  function TransitionPattern(fromType: string, toType: Option<string>): (p: Pattern)
    ensures p == ThreeMedium <==> toType == Some("zazen") && (fromType == "preStart" || fromType == "kinhin")
    ensures p == TwoMedium <==> fromType == "zazen" && toType == Some("kinhin")
    ensures p != OneLong
    ensures p != NoPattern ==> toType.Some? && toType.value != fromType
  {
    if fromType == "preStart" && toType == Some("zazen") then ThreeMedium
    else if fromType == "zazen" && toType == Some("kinhin") then TwoMedium
    else if fromType == "kinhin" && toType == Some("zazen") then ThreeMedium
    else NoPattern
  }
}
