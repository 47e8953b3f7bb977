/**
 * The mandatory-permission check of src/tbw/core/permissions.js. The three
 * browser probes are parameters: whether the geolocation request succeeded,
 * and the media stream's audio and video track counts (`None` when
 * `getUserMedia` rejected).
 */
module Permissions {
  import opened Wrappers
  import opened Json
  import opened WebStorage
  import opened Storage

  const PermOkKey: string := "tbw_perm_ok"
  const RememberedKey: string := "tbw_perm_remembered"

  datatype MediaTracks = MediaTracks(audio: nat, video: nat)

  /** `{ ok: true }` without probing, or the full probe result. */
  datatype PermResult =
    | Remembered
    | Probed(ok: bool, locOk: bool, micOk: bool, camOk: bool)
  {
    predicate Ok() { Remembered? || ok }
  }

  /** `permissionsRememberedOk()`: both the remembered and the ok flag are set. */
  function PermissionsRememberedOk(items: map<string, Raw>): bool {
    GetFlag(items, RememberedKey, false) && GetFlag(items, PermOkKey, false)
  }

  /** The storage contents after a probe with overall result `allOk`. */
  function AfterProbe(items: map<string, Raw>, allOk: bool): map<string, Raw> {
    var once := Written(items, map[PermOkKey := Bool(allOk)]);
    if allOk then Written(once, map[RememberedKey := Bool(true)]) else once
  }

  /**
   * A probe overwrites the ok flag with its result; the remembered flag is set
   * on success and otherwise kept, so a failure after a success leaves
   * remembered set, ok cleared, and the next call probing again.
   */
  lemma {:induction false} FlagsAfterProbe(items: map<string, Raw>, allOk: bool)
    ensures GetFlag(AfterProbe(items, allOk), PermOkKey, false) == allOk
    ensures allOk ==> GetFlag(AfterProbe(items, allOk), RememberedKey, false)
    ensures !allOk ==> GetFlag(AfterProbe(items, allOk), RememberedKey, false) == GetFlag(items, RememberedKey, false)
    ensures PermissionsRememberedOk(AfterProbe(items, allOk)) == allOk
  {
    var once := Written(items, map[PermOkKey := Bool(allOk)]);
    FlagAfterSetFlag(items, PermOkKey, Bool(allOk), RememberedKey, false);
    if allOk {
      FlagAfterSetFlag(once, RememberedKey, Bool(true), PermOkKey, false);
    }
  }

  /** `ensurePermissions()`: location, microphone and camera are all required. */
  method EnsurePermissions(ls: LocalStorage, geoOk: bool, media: Option<MediaTracks>) returns (r: PermResult)
    modifies ls
    ensures r.Remembered? <==> old(PermissionsRememberedOk(ls.items))
    ensures r.Remembered? ==> ls.items == old(ls.items)
    ensures r.Probed? ==> r.locOk == geoOk
    ensures r.Probed? ==> r.micOk == (media.Some? && media.value.audio > 0)
    ensures r.Probed? ==> r.camOk == (media.Some? && media.value.video > 0)
    ensures r.Probed? ==> r.ok == (r.locOk && r.micOk && r.camOk)
    ensures r.Probed? ==> ls.items == AfterProbe(old(ls.items), r.ok)
    ensures PermissionsRememberedOk(ls.items) == r.Ok()
  {
    var remembered := GetFlag(ls.items, RememberedKey, false);
    var ok := GetFlag(ls.items, PermOkKey, false);
    if remembered && ok {
      return Remembered;
    }
    var locOk := geoOk;
    var micOk := false;
    var camOk := false;
    if media.Some? {
      micOk := media.value.audio > 0;
      camOk := media.value.video > 0;
    }
    var allOk := locOk && micOk && camOk;
    ghost var before := ls.items;
    var _ := SetFlag(ls, PermOkKey, Bool(allOk));
    if allOk {
      var _ := SetFlag(ls, RememberedKey, Bool(true));
    }
    FlagsAfterProbe(before, allOk);
    r := Probed(allOk, locOk, micOk, camOk);
  }
}
