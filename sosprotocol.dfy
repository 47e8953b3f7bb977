/**
 * The emergency protocol of src/tbw/sos/SOSProtocol.js: impact detection
 * from sensor readings, the stored SOS state, and the payload for an
 * operator. `Date.now()` is the parameter `now`.
 */
module SOSProtocol {
  import opened Wrappers
  import opened Json
  import opened WebStorage

  const ActiveKey: string := "tbw_sos_active"
  const LastKey: string := "tbw_sos_last"

  /** The stored text "1": the JSON text of the number 1. */
  const ActiveText: Raw := Json(Num(1.0))

  datatype Impact = ImpactHit | CrashSound | Silence {
    /** The string `detectImpact` returns. */
    function Name(): string {
      match this
      case ImpactHit => "IMPACT"
      case CrashSound => "CRASH_SOUND"
      case Silence => "SILENCE"
    }
  }

  /** `detectImpact({ accel, soundPeak, silenceMs })`; `None` is `null`. */
  function DetectImpact(accel: real, soundPeak: real, silenceMs: real): Option<Impact> {
    if accel > 3.5 then Some(ImpactHit)
    else if soundPeak > 0.85 then Some(CrashSound)
    else if silenceMs > 15000.0 then Some(Silence)
    else None
  }

  /**
   * The readings are tried in the order acceleration, sound, silence, each
   * against a strict threshold; a reading at its threshold does not count.
   */
  lemma {:induction false} DetectImpactPriority(accel: real, soundPeak: real, silenceMs: real)
    ensures var r := DetectImpact(accel, soundPeak, silenceMs);
      && (accel > 3.5 <==> r == Some(ImpactHit))
      && (r == Some(CrashSound) <==> accel <= 3.5 && soundPeak > 0.85)
      && (r == Some(Silence) <==> accel <= 3.5 && soundPeak <= 0.85 && silenceMs > 15000.0)
      && (r.None? <==> accel <= 3.5 && soundPeak <= 0.85 && silenceMs <= 15000.0)
  {
  }

  /** Readings exactly at the thresholds give no impact. */
  lemma ThresholdsAreStrict()
    ensures DetectImpact(3.5, 0.85, 15000.0) == None
    ensures DetectImpact(3.5, 0.0, 0.0) == None && DetectImpact(0.0, 0.0, 15000.0) == None
  {
  }

  /** `{ ts, payload }` as stored; an undefined payload is dropped by `JSON.stringify`. */
  function LastRecord(now: int, payload: Option<Value>): Value {
    if payload.Some? then Obj(map["ts" := Num(now as real), "payload" := payload.value])
    else Obj(map["ts" := Num(now as real)])
  }

  /** `isSOSActive()`: the active item is exactly the text "1". */
  predicate IsSOSActive(items: map<string, Raw>) {
    ActiveKey in items && items[ActiveKey] == ActiveText
  }

  /** `startSOS(payload)`: marks SOS active, records the payload with the time, and returns true. */
  method StartSOS(ls: LocalStorage, payload: Option<Value>, now: int) returns (r: bool)
    modifies ls
    ensures r
    ensures ls.items == old(ls.items)[ActiveKey := ActiveText][LastKey := Json(LastRecord(now, payload))]
    ensures IsSOSActive(ls.items)
    ensures ls.items[LastKey] == Json(LastRecord(now, payload))
  {
    ls.SetItem(ActiveKey, ActiveText);
    ls.SetItem(LastKey, Json(LastRecord(now, payload)));
    r := true;
  }

  /** `stopSOS()`: removes the active item; the last record stays. */
  method StopSOS(ls: LocalStorage)
    modifies ls
    ensures ls.items == old(ls.items) - {ActiveKey}
    ensures !IsSOSActive(ls.items)
  {
    ls.RemoveItem(ActiveKey);
  }

  /** The recorded payload is the one passed in, stamped with the start time. */
  lemma LastRecordHoldsPayload(now: int, payload: Value)
    ensures Field(LastRecord(now, Some(payload)), "payload") == Some(payload)
    ensures Field(LastRecord(now, Some(payload)), "ts") == Some(Num(now as real))
  {
  }

  /** The message for the operator; an omitted field is `None`. */
  datatype OperatorPayload = OperatorPayload(
    country: string, lang: string,
    location: Option<Value>, summary: Option<Value>, sensors: Option<Value>, injuries: Option<Value>,
    source: string, confidence: string)

  /** `buildOperatorPayload({...})`: country "HR" and lang "en" when omitted. */
  function BuildOperatorPayload(country: Option<string>, lang: Option<string>, location: Option<Value>,
                                summary: Option<Value>, sensors: Option<Value>, injuries: Option<Value>)
    : (p: OperatorPayload)
    ensures p.country == country.GetOr("HR") && p.lang == lang.GetOr("en")
    ensures country.None? ==> p.country == "HR"
    ensures lang.None? ==> p.lang == "en"
    ensures p.source == "TBW AI PREMIUM" && p.confidence == "HIGH"
    ensures p.location == location && p.summary == summary && p.sensors == sensors && p.injuries == injuries
  {
    OperatorPayload(country.GetOr("HR"), lang.GetOr("en"), location, summary, sensors, injuries,
                    "TBW AI PREMIUM", "HIGH")
  }
}
