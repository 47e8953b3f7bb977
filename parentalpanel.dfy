/**
 * The guardian form of src/tbw/parental/ParentalPanel.jsx: when it may be
 * saved, and the profile it saves. The form fields are one value; the
 * rendering is not modelled.
 */
module ParentalPanel {
  import opened Wrappers
  import opened Text
  import opened Json
  import opened WebStorage
  import opened Storage
  import opened ParentalEngine

  /** The form state; `chPhone` is the "Call" checkbox. */
  datatype Form = Form(
    name: string, role: string, country: string, lang: string,
    email: string, phone: string,
    chEmail: bool, chPhone: bool, chSms: bool,
    c1: bool, c2: bool, c3: bool, c4: bool)

  /** The form as it opens. */
  const InitialForm: Form := Form("", "parent", "HR", "hr", "", "", true, false, false, false, false, false, false)

  /**
   * A usable channel: a checked email with a trimmed address of more than 3
   * UTF-16 code units, or a checked call or SMS with a trimmed phone of more than 5.
   */
  predicate ChannelOk(f: Form) {
    (f.chEmail && Utf16Length(Trim(f.email)) > 3) || ((f.chPhone || f.chSms) && Utf16Length(Trim(f.phone)) > 5)
  }

  /** All four mandatory consents. */
  predicate ConsentsOk(f: Form) {
    f.c1 && f.c2 && f.c3 && f.c4
  }

  /** `canSave`: a trimmed name of at least 3 UTF-16 code units, a usable channel and all consents. */
  predicate CanSave(f: Form) {
    Utf16Length(Trim(f.name)) >= 3 && ChannelOk(f) && ConsentsOk(f)
  }

  /** The freshly opened form cannot be saved: no consent is given yet. */
  lemma InitialFormCannotSave()
    ensures !CanSave(InitialForm)
  {
  }

  /** `notify`: the contact details of the checked channels only. */
  function Notify(f: Form): map<string, Value> {
    map["email" := Str(if f.chEmail then Trim(f.email) else ""),
        "phone" := Str(if f.chPhone || f.chSms then Trim(f.phone) else ""),
        "sms" := Bool(f.chSms),
        "call" := Bool(f.chPhone)]
  }

  /** The profile object `save` hands to `saveParentalProfile`. */
  function ProfileOf(f: Form): Value {
    Obj(map["name" := Str(f.name), "role" := Str(f.role), "country" := Str(f.country), "lang" := Str(f.lang),
            "notify" := Obj(Notify(f)),
            "consents" := Obj(map["c1" := Bool(f.c1), "c2" := Bool(f.c2), "c3" := Bool(f.c3), "c4" := Bool(f.c4)])])
  }

  /**
   * An unchecked channel saves no contact: the email is "" unless email is
   * checked and the phone is "" unless call or SMS is; the SMS and call
   * flags are the checkbox values.
   */
  lemma NotifyFields(f: Form)
    ensures !f.chEmail ==> Notify(f)["email"] == Str("")
    ensures f.chEmail ==> Notify(f)["email"] == Str(Trim(f.email))
    ensures !(f.chPhone || f.chSms) ==> Notify(f)["phone"] == Str("")
    ensures f.chPhone || f.chSms ==> Notify(f)["phone"] == Str(Trim(f.phone))
    ensures Notify(f)["sms"] == Bool(f.chSms) && Notify(f)["call"] == Bool(f.chPhone)
  {
  }

  /** A savable form always saves at least one non-empty contact. */
  lemma {:induction false} SavedContactPresent(f: Form)
    requires CanSave(f)
    ensures Notify(f)["email"] != Str("") || Notify(f)["phone"] != Str("")
  {
    if f.chEmail && Utf16Length(Trim(f.email)) > 3 {
      assert Trim(f.email) != "";
    } else {
      assert Trim(f.phone) != "";
    }
  }

  /**
   * `length` counts code units: a name of two emoji is four units long, so
   * with a usable channel and all consents the form can be saved.
   */
  lemma TwoEmojiNameSaves(email: string)
    requires Utf16Length(Trim(email)) > 3
    ensures CanSave(Form("\U{1F600}\U{1F600}", "parent", "HR", "hr", email, "",
                         true, false, false, true, true, true, true))
  {
    var name := "\U{1F600}\U{1F600}";
    assert Trim(name) == name by {
      TrimSpec(name);
    }
    assert Utf16Length(name[1..]) == 2;
  }

  /** Role, country and language play no part in whether the form can be saved. */
  lemma CanSaveIgnoresDetails(f: Form, role: string, country: string, lang: string)
    ensures CanSave(f.(role := role, country := country, lang := lang)) == CanSave(f)
  {
  }

  /**
   * `save()`: a form that cannot be saved writes nothing and does not call
   * `onDone`; otherwise the profile is stored and `onDone` is called
   * (`done`).
   */
  method Save(ls: LocalStorage, f: Form, now: int) returns (done: bool)
    modifies ls
    ensures done == CanSave(f)
    ensures !CanSave(f) ==> ls.items == old(ls.items)
    ensures CanSave(f) ==> ls.items == Written(old(ls.items), ProfilePatch(ProfileOf(f), now))
  {
    if !CanSave(f) {
      return false;
    }
    SaveParentalProfile(ls, ProfileOf(f), now);
    done := true;
  }

  /** After a successful save, parental mode is on and the stored profile is the form's. */
  lemma SavedProfileReadsBack(items: map<string, Raw>, f: Form, now: int)
    ensures var after := Written(items, ProfilePatch(ProfileOf(f), now));
      ParentalEnabled(after) && GetParentalProfile(after) == Some(ProfileOf(f))
  {
    ProfileAfterSave(items, ProfileOf(f), now);
  }
}
