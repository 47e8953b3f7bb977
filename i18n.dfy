/**
 * Language selection and UI strings of src/tbw/core/i18n.js. The browser's
 * `navigator.language` is the parameter `navLanguage` ("" when it is unset).
 */
module I18n {
  import opened Text
  import opened Json
  import opened WebStorage
  import opened Storage

  /** The locked list of supported languages. */
  const Langs: seq<string> := ["en", "hr", "de", "it", "fr", "es", "zh", "ja"]
  const DefaultLang: string := "en"
  const LangKey: string := "tbwLang"

  const English: map<string, string> := map[
    "TBW_EMERGENCY_PULT" := "TBW EMERGENCY PULT",
    "TBW_TEMP_OFF" := "TBW is temporarily turning off. If you want to reactivate, just say 'Hey TBW' and I’m at your service. Kind regards.",
    "PERM_REQUIRED_TITLE" := "Permissions required",
    "PERM_REQUIRED_BODY" := "TBW Navigation cannot work without Location, Microphone and Camera.",
    "PERM_LOCATION_BLOCK" := "NEMOGUĆNOST KORIŠTENJA TBW NAVIGACIJE BEZ LOKACIJE",
    "PERM_ENABLE" := "Enable",
    "EXIT" := "Exit",
    "CONTINUE" := "Continue",
    "ACCEPT" := "Accept"
  ]

  const Croatian: map<string, string> := map[
    "TBW_EMERGENCY_PULT" := "TBW EMERGENCY PULT",
    "TBW_TEMP_OFF" := "TBW se privremeno isključuje. U slučaju ponovne aktivacije, recite samo 'Hey TBW' i stojim vam na raspolaganju. Lijepi pozdrav.",
    "PERM_REQUIRED_TITLE" := "Potrebne privole",
    "PERM_REQUIRED_BODY" := "TBW Navigacija ne može raditi bez Lokacije, Mikrofona i Kamere.",
    "PERM_LOCATION_BLOCK" := "NEMOGUĆNOST KORIŠTENJA TBW NAVIGACIJE BEZ LOKACIJE",
    "PERM_ENABLE" := "Omogući",
    "EXIT" := "Izlaz",
    "CONTINUE" := "Nastavi",
    "ACCEPT" := "Prihvaćam"
  ]

  /** Only English and Croatian are translated; the other languages fall back to English. */
  const Strings: map<string, map<string, string>> := map["en" := English, "hr" := Croatian]

  /** `getDeviceLang()`: the lower-cased part of the browser language before the first "-", if supported. */
  function GetDeviceLang(navLanguage: string): (r: string)
    ensures r in Langs
    ensures var base := BeforeFirst(Lower(if navLanguage == "" then "en" else navLanguage), '-');
      (base in Langs ==> r == base) && (base !in Langs ==> r == DefaultLang)
  {
    var nav := Lower(if navLanguage == "" then "en" else navLanguage);
    var base := BeforeFirst(nav, '-');
    if base in Langs then base else DefaultLang
  }

  /** A region subtag is dropped. */
  lemma DeviceLangRegion()
    ensures GetDeviceLang("hr-HR") == "hr"
  {
    assert Lower("hr-HR") == "hr-hr";
    assert BeforeFirst("hr-hr", '-') == "hr";
  }

  /** The tag is matched case-insensitively. */
  lemma DeviceLangCase()
    ensures GetDeviceLang("DE") == "de"
  {
    assert Lower("DE") == "de";
    assert BeforeFirst("de", '-') == "de";
  }

  /** An unsupported language gives English. */
  lemma DeviceLangUnsupported()
    ensures GetDeviceLang("pt-BR") == "en"
  {
    assert Lower("pt-BR") == "pt-br";
    assert BeforeFirst("pt-br", '-') == "pt";
  }

  /** A missing browser language counts as "en". */
  lemma DeviceLangMissing()
    ensures GetDeviceLang("") == "en"
  {
    assert Lower("en") == "en";
    assert BeforeFirst("en", '-') == "en";
  }

  /** `getLang()`: a stored `tbwLang` first, then the device language; unsupported values give "en". */
  function GetLang(items: map<string, Raw>, navLanguage: string): (r: string)
    ensures r in Langs
    ensures var s := ReadStore(items);
      LangKey in s && s[LangKey].Str? && s[LangKey].s in Langs ==> r == s[LangKey].s
    ensures var s := ReadStore(items);
      !(LangKey in s && Truthy(s[LangKey])) ==> r == GetDeviceLang(navLanguage)
    ensures var s := ReadStore(items);
      LangKey in s && Truthy(s[LangKey]) && !(s[LangKey].Str? && s[LangKey].s in Langs) ==> r == DefaultLang
  {
    var lang := FieldOr(ReadStore(items), LangKey, Str(GetDeviceLang(navLanguage)));
    if lang.Str? && lang.s in Langs then lang.s else DefaultLang
  }

  /** After a write of a supported `l` under `tbwLang`, `getLang()` is `l` whatever the device says. */
  lemma {:induction false} GetLangAfterSetLang(items: map<string, Raw>, l: string, navLanguage: string)
    requires l in Langs
    ensures GetLang(Written(items, map[LangKey := Str(l)]), navLanguage) == l
  {
    ReadAfterWrite(items, map[LangKey := Str(l)]);
  }

  /** `setLang(lang)`: stores a supported language; an unsupported one writes nothing. */
  method SetLang(ls: LocalStorage, lang: string, navLanguage: string) returns (r: string)
    modifies ls
    ensures lang !in Langs ==> ls.items == old(ls.items) && r == GetLang(ls.items, navLanguage)
    ensures lang in Langs ==> ls.items == Written(old(ls.items), map[LangKey := Str(lang)]) && r == lang
    ensures GetLang(ls.items, navLanguage) == r
  {
    if lang !in Langs {
      r := GetLang(ls.items, navLanguage);
      return;
    }
    var _ := WriteStore(ls, map[LangKey := Str(lang)]);
    GetLangAfterSetLang(old(ls.items), lang, navLanguage);
    r := lang;
  }

  /** `t(key)`: the current language's string, then the English one, then `key` itself. */
  function T(items: map<string, Raw>, navLanguage: string, key: string): (r: string)
  {
    var lang := GetLang(items, navLanguage);
    var dict := if lang in Strings then Strings[lang] else English;
    if key in dict && dict[key] != "" then dict[key]
    else if key in English && English[key] != "" then English[key]
    else key
  }

  /** The table of a translated language. */
  lemma StringsTables()
    ensures forall l :: l in Strings ==> Strings[l] == (if l == "hr" then Croatian else English)
  {
  }

  lemma EnglishComplete()
    ensures forall k :: k in English ==> English[k] != ""
    ensures forall k :: k in Croatian ==> Croatian[k] != ""
  {
  }

  /** Every language but Croatian reads the English table; a key no table has reads as itself. */
  lemma TranslationFallback(items: map<string, Raw>, navLanguage: string, key: string)
    ensures GetLang(items, navLanguage) != "hr" && key in English ==> T(items, navLanguage, key) == English[key]
    ensures key !in English && key !in Croatian ==> T(items, navLanguage, key) == key
    ensures GetLang(items, navLanguage) == "hr" && key in Croatian ==> T(items, navLanguage, key) == Croatian[key]
  {
    EnglishComplete();
    StringsTables();
  }
}
