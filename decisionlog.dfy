/** The general decision log of src/tbw/legal/DecisionLog.js. `Date.now()` is `now`. */
module DecisionLog {
  import opened Json
  import opened WebStorage
  import opened AppendLog

  const DecisionKey: string := "tbw_decision_log"

  /** `log(entry)`; `ok` is false when it throws on a corrupt log. */
  method Log(ls: LocalStorage, entry: Value, now: int) returns (ok: bool)
    modifies ls
    ensures ok <==> PriorEntries(old(ls.items), DecisionKey).Some?
    ensures !ok ==> ls.items == old(ls.items)
    ensures ok ==> ls.items == old(ls.items)[DecisionKey := Json(Arr(PriorEntries(old(ls.items), DecisionKey).value + [Stamped(now, entry)]))]
  {
    ok := Append(ls, DecisionKey, entry, now);
  }

  /** `readLog()`. */
  function ReadLog(items: map<string, Raw>): (v: Value)
    ensures DecisionKey !in items ==> v == Arr([])
    ensures DecisionKey in items && items[DecisionKey].Invalid? ==> v == Arr([])
  {
    ReadEntries(items, DecisionKey)
  }
}
