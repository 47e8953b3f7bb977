/**
 * The injury estimate and the fatigue advice of
 * src/tbw/safety/FatigueInjuryEngine.js.
 */
module FatigueInjury {
  import opened Wrappers
  import SOSProtocol

  datatype Injury = LikelyInjury | PossibleInjury | NoInjury {
    /** The string `analyzeInjury` returns. */
    function Name(): string {
      match this
      case LikelyInjury => "LIKELY_INJURY"
      case PossibleInjury => "POSSIBLE_INJURY"
      case NoInjury => "NONE"
    }
  }

  /** `analyzeInjury({ accel, soundPeak, painWords })`; pain words are taken by truthiness. */
  function AnalyzeInjury(accel: real, soundPeak: real, painWords: bool): Injury {
    if accel > 3.5 || soundPeak > 0.85 then LikelyInjury
    else if painWords then PossibleInjury
    else NoInjury
  }

  /**
   * An impact reading makes an injury likely even when pain is reported;
   * reported pain alone makes it possible; otherwise there is none.
   */
  lemma {:induction false} InjuryCases(accel: real, soundPeak: real, painWords: bool)
    ensures AnalyzeInjury(accel, soundPeak, painWords) == LikelyInjury <==> accel > 3.5 || soundPeak > 0.85
    ensures AnalyzeInjury(accel, soundPeak, painWords) == PossibleInjury <==>
      accel <= 3.5 && soundPeak <= 0.85 && painWords
    ensures AnalyzeInjury(accel, soundPeak, painWords) == NoInjury <==>
      accel <= 3.5 && soundPeak <= 0.85 && !painWords
  {
  }

  /**
   * The injury estimate uses the impact thresholds of the SOS protocol: an
   * injury is likely exactly when `detectImpact` reports an impact or a
   * crash sound, whatever the silence.
   */
  lemma {:induction false} LikelyInjuryIsImpact(accel: real, soundPeak: real, painWords: bool, silenceMs: real)
    ensures AnalyzeInjury(accel, soundPeak, painWords) == LikelyInjury <==>
      SOSProtocol.DetectImpact(accel, soundPeak, silenceMs) in {Some(SOSProtocol.ImpactHit), Some(SOSProtocol.CrashSound)}
  {
    SOSProtocol.DetectImpactPriority(accel, soundPeak, silenceMs);
  }

  const FatigueMessage: string := "Preporučujem kratku pauzu. Umor može utjecati na reakcije."

  /** `{ warn, message }`; no message field without a warning. */
  datatype Advisory = Advisory(warn: bool, message: Option<string>)

  /** `fatigueAdvisory(score)`: a break is advised from a score of 0.6 on. */
  function FatigueAdvisory(score: real): (a: Advisory)
    ensures a.warn <==> score >= 0.6
    ensures a.warn ==> a.message == Some(FatigueMessage)
    ensures !a.warn ==> a == Advisory(false, None)
  {
    if score >= 0.6 then Advisory(true, Some(FatigueMessage)) else Advisory(false, None)
  }
}
