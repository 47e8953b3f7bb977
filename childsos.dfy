/** The child-in-danger classifier of src/tbw/sos/ChildSOS.js. */
module ChildSOS {
  import opened Wrappers

  datatype ChildReason = HeatLocked | InfantNoResponse | NoResponseHeat {
    /** The string `childCriticalCheck` returns. */
    function Name(): string {
      match this
      case HeatLocked => "HEAT_LOCKED"
      case InfantNoResponse => "INFANT_NO_RESPONSE"
      case NoResponseHeat => "NO_RESPONSE_HEAT"
    }
  }

  /** `childCriticalCheck({ temperatureC, lockedCar, voiceResponse, ageMonths })`; `None` is `null`. */
  function ChildCriticalCheck(temperatureC: real, lockedCar: bool, voiceResponse: bool, ageMonths: real)
    : Option<ChildReason>
  {
    if lockedCar && temperatureC >= 30.0 then Some(HeatLocked)
    else if !voiceResponse && ageMonths < 18.0 then Some(InfantNoResponse)
    else if !voiceResponse && temperatureC >= 28.0 then Some(NoResponseHeat)
    else None
  }

  /** A locked car at 30 °C or more is always heat-locked, whatever the response or age. */
  lemma HeatLockedFirst(temperatureC: real, voiceResponse: bool, ageMonths: real)
    requires temperatureC >= 30.0
    ensures ChildCriticalCheck(temperatureC, true, voiceResponse, ageMonths) == Some(HeatLocked)
  {
  }

  /**
   * Without heat lock: a silent infant under 18 months is critical, a
   * silent older child from 28 °C on is critical, and a child who answers
   * is never reported.
   */
  lemma {:induction false} ChildCheckCases(temperatureC: real, lockedCar: bool, voiceResponse: bool, ageMonths: real)
    requires !(lockedCar && temperatureC >= 30.0)
    ensures !voiceResponse && ageMonths < 18.0 ==>
      ChildCriticalCheck(temperatureC, lockedCar, voiceResponse, ageMonths) == Some(InfantNoResponse)
    ensures !voiceResponse && ageMonths >= 18.0 && temperatureC >= 28.0 ==>
      ChildCriticalCheck(temperatureC, lockedCar, voiceResponse, ageMonths) == Some(NoResponseHeat)
    ensures !voiceResponse && ageMonths >= 18.0 && temperatureC < 28.0 ==>
      ChildCriticalCheck(temperatureC, lockedCar, voiceResponse, ageMonths) == None
    ensures voiceResponse ==> ChildCriticalCheck(temperatureC, lockedCar, voiceResponse, ageMonths) == None
  {
  }

  datatype Escalation = Escalation(reason: Option<ChildReason>, autoCall: bool, priority: string)

  /** `escalateChildSOS(reason)`: the reason, with an automatic call at critical priority. */
  function EscalateChildSOS(reason: Option<ChildReason>): (e: Escalation)
    ensures e.reason == reason && e.autoCall && e.priority == "CRITICAL"
  {
    Escalation(reason, true, "CRITICAL")
  }
}
