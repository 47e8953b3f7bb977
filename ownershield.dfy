/** The decision evidence log of src/tbw/legal/OwnerShield.js. `Date.now()` is `now`. */
module OwnerShield {
  import opened Json
  import opened WebStorage
  import opened AppendLog

  const ShieldKey: string := "tbw_owner_shield_log"

  /** `logDecision(entry)`; `ok` is false when it throws on a corrupt log. */
  method LogDecision(ls: LocalStorage, entry: Value, now: int) returns (ok: bool)
    modifies ls
    ensures ok <==> PriorEntries(old(ls.items), ShieldKey).Some?
    ensures !ok ==> ls.items == old(ls.items)
    ensures ok ==> ls.items == old(ls.items)[ShieldKey := Json(Arr(PriorEntries(old(ls.items), ShieldKey).value + [Stamped(now, entry)]))]
  {
    ok := Append(ls, ShieldKey, entry, now);
  }

  /** `getShieldLog()`. */
  function GetShieldLog(items: map<string, Raw>): (v: Value)
    ensures ShieldKey !in items ==> v == Arr([])
    ensures ShieldKey in items && items[ShieldKey].Invalid? ==> v == Arr([])
  {
    ReadEntries(items, ShieldKey)
  }
}
