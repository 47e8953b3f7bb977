/**
 * The flat key-value store of src/tbw/core/storage.js: one JSON object kept
 * under a single `localStorage` key, read whole and written back whole.
 */
module Storage {
  import opened Json
  import opened WebStorage

  const StoreKey: string := "TBW_AI_PREMIUM_STORE_V1"

  /** `readStore()`: the stored object, or `{}` when nothing is stored or the text does not parse. */
  function ReadStore(items: map<string, Raw>): (s: map<string, Value>)
    ensures StoreKey !in items ==> s == map[]
    ensures StoreKey in items && items[StoreKey].Invalid? ==> s == map[]
    ensures StoreKey in items && items[StoreKey].Json? && items[StoreKey].v.Obj? ==> s == items[StoreKey].v.m
  {
    if StoreKey in items && items[StoreKey].Json? && items[StoreKey].v.Obj? then items[StoreKey].v.m else map[]
  }

  /** The storage contents after `writeStore(patch)`: `{ ...prev, ...patch }` written back. */
  function Written(items: map<string, Raw>, patch: map<string, Value>): (r: map<string, Raw>)
    ensures r.Keys == items.Keys + {StoreKey}
    ensures forall k :: k in items && k != StoreKey ==> r[k] == items[k]
  {
    items[StoreKey := Json(Obj(ReadStore(items) + patch))]
  }

  /** A write of `patch` changes the keys of `patch` to their patch value and keeps every other key. */
  lemma ReadAfterWrite(items: map<string, Raw>, patch: map<string, Value>)
    ensures var s := ReadStore(Written(items, patch));
      && (forall k :: k in patch ==> k in s && s[k] == patch[k])
      && (forall k :: k !in patch ==> (k in s <==> k in ReadStore(items)))
      && (forall k :: k !in patch && k in s ==> s[k] == ReadStore(items)[k])
  {
  }

  /** Applying the same patch twice is applying it once. */
  lemma WriteIdempotent(items: map<string, Raw>, patch: map<string, Value>)
    ensures Written(Written(items, patch), patch) == Written(items, patch)
  {
    var once := ReadStore(items) + patch;
    assert ReadStore(Written(items, patch)) == once;
    assert once + patch == once;
  }

  /** `writeStore(patch)`: merges `patch` over the stored object and returns the merged object. */
  method WriteStore(ls: LocalStorage, patch: map<string, Value>) returns (next: map<string, Value>)
    modifies ls
    ensures ls.items == Written(old(ls.items), patch)
    ensures next == ReadStore(ls.items)
    ensures next == old(ReadStore(ls.items)) + patch
  {
    var prev := ReadStore(ls.items);
    next := prev + patch;
    ls.SetItem(StoreKey, Json(Obj(next)));
  }

  /** `getFlag(key, fallback)`: the stored value only when it is a boolean. */
  function GetFlag(items: map<string, Raw>, key: string, fallback: bool): (r: bool)
    ensures var s := ReadStore(items);
      (key in s && s[key].Bool? ==> r == s[key].b) && (!(key in s && s[key].Bool?) ==> r == fallback)
  {
    var s := ReadStore(items);
    if key in s && s[key].Bool? then s[key].b else fallback
  }

  /** `setFlag(key, value)`: stores `!!value` under `key`. */
  method SetFlag(ls: LocalStorage, key: string, value: Value) returns (next: map<string, Value>)
    modifies ls
    ensures ls.items == Written(old(ls.items), map[key := Bool(Truthy(value))])
    ensures next == ReadStore(ls.items)
  {
    next := WriteStore(ls, map[key := Bool(Truthy(value))]);
  }

  /** After `setFlag(key, v)`, `getFlag(key, _)` is `!!v`, and every other flag reads as before. */
  lemma FlagAfterSetFlag(items: map<string, Raw>, key: string, v: Value, other: string, fallback: bool)
    ensures GetFlag(Written(items, map[key := Bool(Truthy(v))]), key, fallback) == Truthy(v)
    ensures other != key ==>
      GetFlag(Written(items, map[key := Bool(Truthy(v))]), other, fallback) == GetFlag(items, other, fallback)
  {
  }
}
