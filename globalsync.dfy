/**
 * Region-wide sharing of confirmed critical events, src/tbw/global/GlobalSync.js.
 * Country codes are strings, `""` for a falsy code; `Date.now()` is `now`.
 */
module GlobalSync {
  import opened Wrappers
  import opened Text
  import opened Json
  import opened WebStorage

  const SyncKey: string := "tbw_global_sync_last"
  const Source: string := "TBW AI PREMIUM"

  /** `normalizeRegion(countryCode)`: upper-cased, "XX" for a falsy code. */
  function NormalizeRegion(countryCode: string): (r: string)
    ensures countryCode == "" ==> r == "XX"
    ensures countryCode != "" ==> r == Upper(countryCode)
  {
    Upper(if countryCode == "" then "XX" else countryCode)
  }

  /** Normalising twice is normalising once, and never gives "". */
  lemma NormalizeRegionIdempotent(countryCode: string)
    ensures NormalizeRegion(NormalizeRegion(countryCode)) == NormalizeRegion(countryCode)
    ensures NormalizeRegion(countryCode) != ""
  {
    var r := if countryCode == "" then "XX" else countryCode;
    UpperIdempotent(r);
    assert |Upper(r)| == |r|;
  }

  /** `isCritical(event)`: a truthy event with severity "CRITICAL" and `confirmed` exactly `true`. */
  predicate IsCritical(event: Value) {
    Truthy(event) && Field(event, "severity") == Some(Str("CRITICAL")) && Field(event, "confirmed") == Some(Bool(true))
  }

  /** Only an object can be critical, and a merely truthy `confirmed` does not count. */
  lemma CriticalNeedsConfirmation(m: map<string, Value>)
    ensures !IsCritical(Null)
    ensures !IsCritical(Obj(m["severity" := Str("CRITICAL")]["confirmed" := Num(1.0)]))
    ensures IsCritical(Obj(m["severity" := Str("CRITICAL")]["confirmed" := Bool(true)]))
  {
  }

  /** The record `publish` stores. */
  function SyncRecord(now: int, event: Value, countryCode: string): Value {
    Obj(map["ts" := Num(now as real), "region" := Str(NormalizeRegion(countryCode)), "event" := event,
            "source" := Str(Source)])
  }

  /** `publish(event, countryCode)`: only a critical event is stored, and only then is the result true. */
  method Publish(ls: LocalStorage, event: Value, countryCode: string, now: int) returns (r: bool)
    modifies ls
    ensures r == IsCritical(event)
    ensures !r ==> ls.items == old(ls.items)
    ensures r ==> ls.items == old(ls.items)[SyncKey := Json(SyncRecord(now, event, countryCode))]
  {
    if !IsCritical(event) {
      return false;
    }
    ls.SetItem(SyncKey, Json(SyncRecord(now, event, countryCode)));
    r := true;
  }

  /** `readLast()`: the stored record, `null` when nothing is stored or the text does not parse. */
  function ReadLast(items: map<string, Raw>): (v: Value)
    ensures SyncKey !in items ==> v == Null
    ensures SyncKey in items && items[SyncKey].Invalid? ==> v == Null
  {
    if SyncKey in items && items[SyncKey].Json? then items[SyncKey].v else Null
  }

  /** After a critical event is published, `readLast()` holds its record with the normalised region. */
  lemma ReadLastAfterPublish(items: map<string, Raw>, event: Value, countryCode: string, now: int)
    ensures var last := ReadLast(items[SyncKey := Json(SyncRecord(now, event, countryCode))]);
      && Field(last, "event") == Some(event)
      && Field(last, "region") == Some(Str(NormalizeRegion(countryCode)))
      && Field(last, "source") == Some(Str(Source))
  {
  }
}
