/**
 * The local broadcast of src/tbw/synergy/SynergyEngine.js. `Date.now()`
 * is the parameter `now`.
 */
module SynergyEngine {
  import opened Wrappers
  import opened Json
  import opened WebStorage
  import GlobalSync

  const SynergyKey: string := "tbw_synergy_last"

  /** `canBroadcast(event)`: severity "CRITICAL" and `confirmed` exactly `true`. */
  predicate CanBroadcast(event: Value) {
    Truthy(event) && Field(event, "severity") == Some(Str("CRITICAL")) && Field(event, "confirmed") == Some(Bool(true))
  }

  /** The broadcast rule and the region-sync rule accept the same events. */
  lemma SameRuleAsGlobalSync(event: Value)
    ensures CanBroadcast(event) <==> GlobalSync.IsCritical(event)
  {
  }

  function BroadcastRecord(now: int, event: Value): Value {
    Obj(map["ts" := Num(now as real), "event" := event])
  }

  /** `broadcast(event)`: always stores the event, without consulting `canBroadcast`, and returns true. */
  method Broadcast(ls: LocalStorage, event: Value, now: int) returns (r: bool)
    modifies ls
    ensures r
    ensures ls.items == old(ls.items)[SynergyKey := Json(BroadcastRecord(now, event))]
  {
    ls.SetItem(SynergyKey, Json(BroadcastRecord(now, event)));
    r := true;
  }

  /** `lastBroadcast()`: the stored record, `null` when nothing is stored or the text does not parse. */
  function LastBroadcast(items: map<string, Raw>): (v: Value)
    ensures SynergyKey !in items ==> v == Null
    ensures SynergyKey in items && items[SynergyKey].Invalid? ==> v == Null
  {
    if SynergyKey in items && items[SynergyKey].Json? then items[SynergyKey].v else Null
  }

  /** Even an unconfirmed event is broadcast, and of two broadcasts the later one is the last. */
  method BroadcastTwice(ls: LocalStorage, e1: Value, e2: Value, t1: int, t2: int)
    modifies ls
    ensures Field(LastBroadcast(ls.items), "event") == Some(e2)
    ensures Field(LastBroadcast(ls.items), "ts") == Some(Num(t2 as real))
  {
    var _ := Broadcast(ls, e1, t1);
    var _ := Broadcast(ls, e2, t2);
  }
}
