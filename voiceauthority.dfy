/**
 * Driver and passenger voices of src/tbw/voice/VoiceAuthority.js. Voice
 * prints are strings; `""` stands for a falsy or missing print.
 */
module VoiceAuthority {
  import opened Wrappers

  datatype Role = Unknown | Driver | Passenger {
    /** The string `classifySpeaker` returns. */
    function Name(): string {
      match this
      case Unknown => "UNKNOWN"
      case Driver => "DRIVER"
      case Passenger => "PASSENGER"
    }
  }

  /** The role of `voicePrint` when `driverId` is the registered print. */
  function Classify(driverId: string, voicePrint: string): Role {
    if driverId == "" then Unknown
    else if voicePrint == driverId then Driver
    else Passenger
  }

  /** Without a registered driver every speaker is unknown; with one, only the driver's print is the driver. */
  lemma {:induction false} ClassifyCases(driverId: string, voicePrint: string)
    ensures driverId == "" <==> Classify(driverId, voicePrint) == Unknown
    ensures driverId != "" ==> (Classify(driverId, voicePrint) == Driver <==> voicePrint == driverId)
    ensures driverId != "" ==> (Classify(driverId, voicePrint) == Passenger <==> voicePrint != driverId)
  {
  }

  /** The module-level `DRIVER_VOICE_ID`. */
  class Authority {
    var driverVoiceId: string

    constructor ()
      ensures driverVoiceId == ""
    {
      driverVoiceId := "";
    }

    /** `registerDriverVoice(voicePrint)`: replaces any earlier driver print. */
    method RegisterDriverVoice(voicePrint: string)
      modifies this
      ensures driverVoiceId == voicePrint
    {
      driverVoiceId := voicePrint;
    }

    /** `classifySpeaker({ voicePrint })`. */
    method ClassifySpeaker(voicePrint: string) returns (r: Role)
      ensures r == Classify(driverVoiceId, voicePrint)
    {
      if driverVoiceId == "" {
        return Unknown;
      }
      r := if voicePrint == driverVoiceId then Driver else Passenger;
    }
  }

  /** After re-registering with `q`, the earlier driver `p` is a passenger. */
  method ReRegisterReplaces(a: Authority, p: string, q: string) returns (r: Role)
    requires q != "" && p != q
    modifies a
    ensures r == Passenger && a.driverVoiceId == q
  {
    a.RegisterDriverVoice(p);
    a.RegisterDriverVoice(q);
    r := a.ClassifySpeaker(p);
    ClassifyCases(q, p);
  }

  /** `{ allowed, reason }`; an allowed command has no reason field. */
  datatype Decision = Decision(allowed: bool, reason: Option<string>)

  const DriverRequired: string := "Driver authority required"

  /** `handleCommand({ role, intent })`. */
  function HandleCommand(role: string, intent: string): Decision {
    if role == "PASSENGER" then
      if intent == "HAZARD_REPORT" then Decision(true, None) else Decision(false, Some(DriverRequired))
    else Decision(true, None)
  }

  /** A passenger may only report a hazard; every other role may do anything. */
  lemma {:induction false} CommandAuthority(role: string, intent: string)
    ensures !HandleCommand(role, intent).allowed <==> role == "PASSENGER" && intent != "HAZARD_REPORT"
    ensures HandleCommand(role, intent).allowed <==> HandleCommand(role, intent).reason.None?
    ensures role != Passenger.Name() ==> HandleCommand(role, intent) == Decision(true, None)
  {
  }
}
