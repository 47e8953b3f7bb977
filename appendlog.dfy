/**
 * The append-only JSON array logs that src/tbw/legal/OwnerShield.js and
 * src/tbw/legal/DecisionLog.js keep, each in its own `localStorage` item.
 * Both files carry the same code over different keys; it is modelled once
 * here with the key as a parameter.
 */
module AppendLog {
  import opened Wrappers
  import opened Json
  import opened WebStorage

  /** `{ ts: now, ...entry }`: the entry's own fields, `ts` included, win over the timestamp. */
  function Stamped(now: int, entry: Value): (e: Value)
    ensures e.Obj? && "ts" in e.m
    ensures "ts" in Spread(entry) ==> e.m["ts"] == Spread(entry)["ts"]
    ensures "ts" !in Spread(entry) ==> e.m["ts"] == Num(now as real)
    ensures forall k :: k in Spread(entry) ==> k in e.m && e.m[k] == Spread(entry)[k]
  {
    Obj(map["ts" := Num(now as real)] + Spread(entry))
  }

  /**
   * `JSON.parse(localStorage.getItem(key) || "[]")` followed by `push`: the
   * previous entries when the item is missing, empty or an array; `None`
   * when the parse throws or the parsed value is no array, so `push` throws.
   */
  function PriorEntries(items: map<string, Raw>, key: string): Option<seq<Value>> {
    if key !in items || items[key] == Invalid("") then Some([])
    else if items[key].Json? && items[key].v.Arr? then Some(items[key].v.a)
    else None
  }

  /**
   * Appends `{ ts: now, ...entry }` and writes the array back; `ok` is
   * false when the code throws, and then nothing is written.
   */
  method Append(ls: LocalStorage, key: string, entry: Value, now: int) returns (ok: bool)
    modifies ls
    ensures ok <==> PriorEntries(old(ls.items), key).Some?
    ensures !ok ==> ls.items == old(ls.items)
    ensures ok ==> ls.items == old(ls.items)[key := Json(Arr(PriorEntries(old(ls.items), key).value + [Stamped(now, entry)]))]
  {
    var prev := PriorEntries(ls.items, key);
    if prev.None? {
      return false;
    }
    var next := prev.value + [Stamped(now, entry)];
    ls.SetItem(key, Json(Arr(next)));
    ok := true;
  }

  /** The reading side: the parsed value when it is truthy, otherwise `[]` (also when the parse throws). */
  function ReadEntries(items: map<string, Raw>, key: string): (v: Value)
    ensures key !in items ==> v == Arr([])
    ensures key in items && items[key].Invalid? ==> v == Arr([])
  {
    if key in items && items[key].Json? && Truthy(items[key].v) then items[key].v else Arr([])
  }

  /**
   * A successful append adds exactly one entry at the end and keeps the
   * earlier ones in order.
   */
  lemma {:induction false} AppendKeepsHistory(items: map<string, Raw>, key: string, entry: Value, now: int)
    requires PriorEntries(items, key).Some?
    ensures var after := ReadEntries(items[key := Json(Arr(PriorEntries(items, key).value + [Stamped(now, entry)]))], key);
      && after.Arr?
      && |after.a| == |PriorEntries(items, key).value| + 1
      && after.a[..|after.a| - 1] == PriorEntries(items, key).value
      && after.a[|after.a| - 1] == Stamped(now, entry)
  {
    var next := PriorEntries(items, key).value + [Stamped(now, entry)];
    assert next[..|next| - 1] == PriorEntries(items, key).value;
  }

  /** A stored array is read back as it is, so an entries list that exists reads as those entries. */
  lemma ReadPriorAgree(items: map<string, Raw>, key: string)
    requires key in items && items[key].Json? && items[key].v.Arr?
    ensures ReadEntries(items, key) == Arr(PriorEntries(items, key).value)
  {
  }

  /** A corrupt (non-JSON, non-empty) item makes the append throw. */
  lemma CorruptLogThrows(items: map<string, Raw>, key: string, text: string)
    requires text != ""
    ensures PriorEntries(items[key := Invalid(text)], key).None?
  {
  }
}
