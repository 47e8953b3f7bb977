/**
 * The guardian profile and the escalation pause of
 * src/tbw/parental/parentalEngine.js, kept in the flat store. `Date.now()`
 * is the parameter `now` (milliseconds).
 */
module ParentalEngine {
  import opened Wrappers
  import opened Json
  import opened WebStorage
  import opened Storage

  const EnabledKey: string := "tbw_parental_enabled"
  const ProfileKey: string := "tbw_parental_profile"
  const PausedUntilKey: string := "tbw_parental_paused_until"
  const TimestampKey: string := "tbw_parental_ts"

  const HourMs: int := 60 * 60 * 1000
  const DefaultPauseHours: int := 4

  /** `parentalEnabled()`: the stored enabled value is truthy. */
  predicate ParentalEnabled(items: map<string, Raw>) {
    var s := ReadStore(items);
    EnabledKey in s && Truthy(s[EnabledKey])
  }

  /** `getParentalProfile()`: the stored profile when it is truthy; `None` is `null`. */
  function GetParentalProfile(items: map<string, Raw>): Option<Value> {
    var s := ReadStore(items);
    if ProfileKey in s && Truthy(s[ProfileKey]) then Some(s[ProfileKey]) else None
  }

  /** Nothing stored under the profile key reads as `null`. */
  lemma NoStoredProfile(items: map<string, Raw>)
    requires ProfileKey !in ReadStore(items)
    ensures GetParentalProfile(items) == None
  {
  }

  /** The patch `saveParentalProfile(profile)` writes at time `now`. */
  function ProfilePatch(profile: Value, now: int): map<string, Value> {
    map[ProfileKey := profile, EnabledKey := Bool(true), TimestampKey := Num(now as real)]
  }

  /** `saveParentalProfile(profile)`. */
  method SaveParentalProfile(ls: LocalStorage, profile: Value, now: int)
    modifies ls
    ensures ls.items == Written(old(ls.items), ProfilePatch(profile, now))
  {
    var _ := WriteStore(ls, ProfilePatch(profile, now));
  }

  /**
   * After a save, parental mode is enabled and the profile reads back as
   * saved (a falsy profile reads as `null`).
   */
  lemma {:induction false} ProfileAfterSave(items: map<string, Raw>, profile: Value, now: int)
    ensures ParentalEnabled(Written(items, ProfilePatch(profile, now)))
    ensures Truthy(profile) ==> GetParentalProfile(Written(items, ProfilePatch(profile, now))) == Some(profile)
    ensures !Truthy(profile) ==> GetParentalProfile(Written(items, ProfilePatch(profile, now))) == None
  {
    ReadAfterWrite(items, ProfilePatch(profile, now));
  }

  /** The end of a pause of `hours` hours started at `now`. */
  function PauseEnd(now: int, hours: int): int {
    now + hours * HourMs
  }

  /** `pauseEscalation(hours = 4)`: stores and returns the end of the pause; `None` omits `hours`. */
  method PauseEscalation(ls: LocalStorage, hours: Option<int>, now: int) returns (until: int)
    modifies ls
    ensures until == PauseEnd(now, hours.GetOr(DefaultPauseHours))
    ensures hours.None? ==> until == now + 4 * 3600000
    ensures ls.items == Written(old(ls.items), map[PausedUntilKey := Num(until as real)])
  {
    until := now + hours.GetOr(DefaultPauseHours) * 60 * 60 * 1000;
    var _ := WriteStore(ls, map[PausedUntilKey := Num(until as real)]);
  }

  /** `escalationPaused()` at time `now`: the stored end, or 0 when it is falsy, lies in the future. */
  predicate EscalationPaused(items: map<string, Raw>, now: int) {
    LessThan(now, FieldOr(ReadStore(items), PausedUntilKey, Num(0.0)))
  }

  /** With no stored end the escalation is paused only before time 0. */
  lemma {:induction false} NoPauseStored(items: map<string, Raw>, now: int)
    requires PausedUntilKey !in ReadStore(items)
    ensures EscalationPaused(items, now) <==> now < 0
  {
  }

  /** After a pause is stored, the escalation is paused exactly before its end. */
  lemma {:induction false} PausedBeforeEnd(items: map<string, Raw>, until: int, t: int)
    ensures EscalationPaused(Written(items, map[PausedUntilKey := Num(until as real)]), t) <==> t < until
  {
    ReadAfterWrite(items, map[PausedUntilKey := Num(until as real)]);
  }

  /** `clearPause()`: stores 0 as the end. */
  method ClearPause(ls: LocalStorage)
    modifies ls
    ensures ls.items == Written(old(ls.items), map[PausedUntilKey := Num(0.0)])
  {
    var _ := WriteStore(ls, map[PausedUntilKey := Num(0.0)]);
  }

  /** After `clearPause()`, no time from 0 on is paused. */
  lemma {:induction false} ClearedNotPaused(items: map<string, Raw>, t: int)
    requires t >= 0
    ensures !EscalationPaused(Written(items, map[PausedUntilKey := Num(0.0)]), t)
  {
    PausedBeforeEnd(items, 0, t);
  }
}
