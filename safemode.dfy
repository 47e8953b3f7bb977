/**
 * The silent safe mode of src/tbw/safety/SafeModeEngine.js: an end time
 * kept as text in its own `localStorage` item. `Date.now()` is the
 * parameter `now`.
 */
module SafeMode {
  import opened Wrappers
  import opened Json
  import opened WebStorage

  const SafeModeKey: string := "tbw_safe_mode_until"
  const DefaultSafeModeHours: int := 24

  /**
   * `Number(localStorage.getItem(key) || 0)`: a missing or empty item is 0,
   * a stored number is that number, and any other text is NaN (`None`).
   */
  function StoredUntil(items: map<string, Raw>): Option<real> {
    if SafeModeKey !in items || items[SafeModeKey] == Invalid("") then Some(0.0)
    else if items[SafeModeKey].Json? && items[SafeModeKey].v.Num? then Some(items[SafeModeKey].v.n)
    else None
  }

  /** `isSafeModeActive()` at time `now`: before the stored end (never for NaN). */
  predicate IsSafeModeActive(items: map<string, Raw>, now: int) {
    var until := StoredUntil(items);
    until.Some? && (now as real) < until.value
  }

  /** `activateSafeMode(hours = 24)`: stores `String(until)` and returns `until`; `None` omits `hours`. */
  method ActivateSafeMode(ls: LocalStorage, hours: Option<int>, now: int) returns (until: int)
    modifies ls
    ensures until == now + hours.GetOr(DefaultSafeModeHours) * 3600000
    ensures hours.None? ==> until == now + 24 * 3600000
    ensures ls.items == old(ls.items)[SafeModeKey := Json(Num(until as real))]
  {
    until := now + hours.GetOr(DefaultSafeModeHours) * 60 * 60 * 1000;
    ls.SetItem(SafeModeKey, Json(Num(until as real)));
  }

  /** After an activation, safe mode is on exactly before its end, whatever was stored before. */
  lemma ActiveBeforeEnd(items: map<string, Raw>, until: int, t: int)
    ensures IsSafeModeActive(items[SafeModeKey := Json(Num(until as real))], t) <==> t < until
  {
  }

  /**
   * A later activation replaces the earlier one, so a shorter window ends
   * safe mode sooner: nothing enforces a minimum of 24 hours.
   */
  lemma {:induction false} LaterActivationWins(items: map<string, Raw>, first: int, second: int, t: int)
    requires second <= t < first
    ensures IsSafeModeActive(items[SafeModeKey := Json(Num(first as real))], t)
    ensures !IsSafeModeActive(items[SafeModeKey := Json(Num(first as real))][SafeModeKey := Json(Num(second as real))], t)
  {
    ActiveBeforeEnd(items, first, t);
    ActiveBeforeEnd(items[SafeModeKey := Json(Num(first as real))], second, t);
  }

  /** `clearSafeMode()`: removes the item. */
  method ClearSafeMode(ls: LocalStorage)
    modifies ls
    ensures ls.items == old(ls.items) - {SafeModeKey}
  {
    ls.RemoveItem(SafeModeKey);
  }

  /** After `clearSafeMode()`, safe mode is off at every time from 0 on. */
  lemma ClearedInactive(items: map<string, Raw>, t: int)
    requires t >= 0
    ensures !IsSafeModeActive(items - {SafeModeKey}, t)
  {
  }
}
