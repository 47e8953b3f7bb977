/**
 * Voice selection and the speak guard of src/tbw/core/voice.js. The list the
 * browser's `speechSynthesis.getVoices()` returns is the parameter `available`;
 * the actual synthesis and audio ducking are outside the model, and a call
 * that would speak returns the utterance it would hand to the synthesiser.
 */
module Voice {
  import opened Wrappers
  import opened Text

  datatype SpeechVoice = SpeechVoice(name: string, lang: string)

  /** The alternatives of `/female|woman|zira|.../i`. */
  const FemaleNames: seq<string> := ["female", "woman", "zira", "eva", "helena", "katja", "ana", "susan", "sofia"]
  /** The alternatives of `/male|man|david|.../i`. */
  const MaleNames: seq<string> := ["male", "man", "david", "mark", "ivan", "tom", "alex", "daniel", "george"]

  /** `regex.test(name)` for a case-insensitive alternation of lower-case words. */
  predicate NameMatches(name: string, alts: seq<string>) {
    exists k :: 0 <= k < |alts| && Contains(Lower(name), alts[k])
  }

  /** `lang.slice(0, 2)`. */
  function LangPrefix(lang: string): (p: string)
    ensures |p| == if |lang| < 2 then |lang| else 2
    ensures StartsWith(lang, p)
  {
    if |lang| < 2 then lang else lang[..2]
  }

  /** The search condition of `pickVoice`, with or without the name test. */
  predicate Fits(v: SpeechVoice, prefix: string, alts: seq<string>, needName: bool) {
    StartsWith(v.lang, prefix) && (needName ==> NameMatches(v.name, alts))
  }

  /** `list.find(...)` from index `from`: the least index at or after `from` that fits. */
  function FindFrom(list: seq<SpeechVoice>, prefix: string, alts: seq<string>, needName: bool, from: nat): (r: Option<nat>)
    decreases |list| - from
    ensures r.Some? ==> from <= r.value < |list| && Fits(list[r.value], prefix, alts, needName)
    ensures r.Some? ==> forall j :: from <= j < r.value ==> !Fits(list[j], prefix, alts, needName)
    ensures r.None? ==> forall j :: from <= j < |list| ==> !Fits(list[j], prefix, alts, needName)
  {
    if from >= |list| then None
    else if Fits(list[from], prefix, alts, needName) then Some(from)
    else FindFrom(list, prefix, alts, needName, from + 1)
  }

  /**
   * `pickVoice(list, lang, regex)`: the first voice of the language whose name
   * matches, else the first voice of the language, else the first voice.
   */
  function PickVoice(list: seq<SpeechVoice>, lang: string, alts: seq<string>): (r: Option<SpeechVoice>)
    ensures r.Some? <==> |list| > 0
    ensures var p := LangPrefix(lang);
      forall i :: (0 <= i < |list| && Fits(list[i], p, alts, true)
        && (forall j :: 0 <= j < i ==> !Fits(list[j], p, alts, true))) ==> r == Some(list[i])
    ensures var p := LangPrefix(lang);
      (forall j :: 0 <= j < |list| ==> !Fits(list[j], p, alts, true)) ==>
        forall i :: (0 <= i < |list| && Fits(list[i], p, alts, false)
          && (forall j :: 0 <= j < i ==> !Fits(list[j], p, alts, false))) ==> r == Some(list[i])
    ensures var p := LangPrefix(lang);
      0 < |list| && (forall j :: 0 <= j < |list| ==> !Fits(list[j], p, alts, false)) ==> r == Some(list[0])
  {
    var p := LangPrefix(lang);
    match FindFrom(list, p, alts, true, 0)
    case Some(i) => Some(list[i])
    case None =>
      match FindFrom(list, p, alts, false, 0)
      case Some(i) => Some(list[i])
      case None => if |list| > 0 then Some(list[0]) else None
  }

  /** The male pattern also matches names containing "female" or "woman", since it has no word boundaries. */
  lemma MalePatternOverlapsFemale()
    ensures NameMatches("Microsoft Helena female", MaleNames)
    ensures NameMatches("woman", MaleNames)
  {
    assert Lower("Microsoft Helena female") == "microsoft helena female";
    assert OccursAt("microsoft helena female", "male", 19);
    assert MaleNames[0] == "male";
    assert Lower("woman") == "woman";
    assert OccursAt("woman", "man", 2);
    assert MaleNames[1] == "man";
  }

  /** The settings one utterance is spoken with. */
  datatype VoiceConfig = VoiceConfig(lang: string, voice: Option<SpeechVoice>, rate: real, pitch: real, volume: real)

  datatype Utterance = Utterance(text: string, config: VoiceConfig)

  /** `options.lang || navigator.language || fallback`. */
  function SpeechLang(optionLang: string, navLanguage: string, fallback: string): (r: string)
    ensures optionLang != "" ==> r == optionLang
    ensures optionLang == "" && navLanguage != "" ==> r == navLanguage
    ensures optionLang == "" && navLanguage == "" ==> r == fallback
  {
    if optionLang != "" then optionLang else if navLanguage != "" then navLanguage else fallback
  }

  /** `speakNav`'s settings: slower and lower exactly when the priority is "critical". */
  function NavConfig(lang: string, male: Option<SpeechVoice>, priority: string): (c: VoiceConfig)
    ensures c.voice == male && c.lang == lang && c.volume == 1.0
    ensures priority == "critical" ==> c.rate == 0.85 && c.pitch == 0.9
    ensures priority != "critical" ==> c.rate == 0.9 && c.pitch == 0.95
  {
    var critical := priority == "critical";
    VoiceConfig(lang, male, if critical then 0.85 else 0.9, if critical then 0.9 else 0.95, 1.0)
  }

  /**
   * A cache slot after `ensureVoices`: a chosen voice is kept, an empty slot
   * is filled from a non-empty voice list and stays empty otherwise.
   */
  function Refilled(slot: Option<SpeechVoice>, available: seq<SpeechVoice>, lang: string, names: seq<string>)
    : (r: Option<SpeechVoice>)
    ensures slot.Some? ==> r == slot
    ensures slot.None? && |available| > 0 ==> r == PickVoice(available, lang, names)
    ensures |available| == 0 ==> r == slot
  {
    if slot.Some? || |available| == 0 then slot else PickVoice(available, lang, names)
  }

  /**
   * The voice a first call chooses from a non-empty list is the one every later
   * call uses, whatever list and language that later call sees.
   */
  lemma RefilledSticks(slot: Option<SpeechVoice>, first: seq<SpeechVoice>, lang1: string,
                       later: seq<SpeechVoice>, lang2: string, names: seq<string>)
    ensures |first| > 0 ==> Refilled(slot, first, lang1, names).Some?
    ensures |first| > 0 ==>
      Refilled(Refilled(slot, first, lang1, names), later, lang2, names) == Refilled(slot, first, lang1, names)
  {
  }

  /** The module-level voice cache: `voicesReady`, `femaleVoice` and `maleVoice`. */
  class VoiceEngine {
    var voicesReady: bool
    var female: Option<SpeechVoice>
    var male: Option<SpeechVoice>

    constructor ()
      ensures !voicesReady && female.None? && male.None?
    {
      voicesReady, female, male := false, None, None;
    }

    /** `ensureVoices(lang)`: fills an empty cache slot from a non-empty voice list; a chosen voice is kept. */
    method EnsureVoices(available: seq<SpeechVoice>, lang: string)
      modifies this
      ensures |available| == 0 ==> voicesReady == old(voicesReady) && female == old(female) && male == old(male)
      ensures |available| > 0 ==> voicesReady
      ensures |available| > 0 ==>
        female == (if old(female).Some? then old(female) else PickVoice(available, lang, FemaleNames))
      ensures |available| > 0 ==>
        male == (if old(male).Some? then old(male) else PickVoice(available, lang, MaleNames))
      ensures old(female).Some? ==> female == old(female)
      ensures old(male).Some? ==> male == old(male)
    {
      if |available| == 0 {
        return;
      }
      if female.None? {
        female := PickVoice(available, lang, FemaleNames);
      }
      if male.None? {
        male := PickVoice(available, lang, MaleNames);
      }
      voicesReady := true;
    }

    /**
     * `speakInternal(text, cfg)`: nothing for empty text; otherwise the cache
     * is filled and the utterance is produced only once voices are ready.
     */
    method SpeakInternal(text: string, cfg: VoiceConfig, available: seq<SpeechVoice>) returns (u: Option<Utterance>)
      modifies this
      ensures text == "" ==> u.None? && voicesReady == old(voicesReady) && female == old(female) && male == old(male)
      ensures u.Some? <==> text != "" && (old(voicesReady) || |available| > 0)
      ensures u.Some? ==> u.value == Utterance(text, cfg)
      ensures text != "" ==> voicesReady == (old(voicesReady) || |available| > 0)
      ensures text != "" ==> female == Refilled(old(female), available, cfg.lang, FemaleNames)
      ensures text != "" ==> male == Refilled(old(male), available, cfg.lang, MaleNames)
    {
      if text == "" {
        return None;
      }
      EnsureVoices(available, cfg.lang);
      if !voicesReady {
        return None;
      }
      u := Some(Utterance(text, cfg));
    }

    /**
     * `speak(text, options)`: the concierge voice. The cached female voice is
     * read before the cache is filled, so the first call after a reset speaks
     * with no voice chosen.
     */
    method Speak(text: string, optionLang: string, navLanguage: string, available: seq<SpeechVoice>)
      returns (u: Option<Utterance>)
      modifies this
      ensures u.Some? <==> text != "" && (old(voicesReady) || |available| > 0)
      ensures u.Some? ==> u.value == Utterance(text,
        VoiceConfig(SpeechLang(optionLang, navLanguage, "hr-HR"), old(female), 0.92, 1.05, 1.0))
      ensures text == "" ==> voicesReady == old(voicesReady) && female == old(female) && male == old(male)
      ensures text != "" ==> voicesReady == (old(voicesReady) || |available| > 0)
      ensures text != "" ==> female == Refilled(old(female), available, SpeechLang(optionLang, navLanguage, "hr-HR"), FemaleNames)
      ensures text != "" ==> male == Refilled(old(male), available, SpeechLang(optionLang, navLanguage, "hr-HR"), MaleNames)
    {
      var cfg := VoiceConfig(SpeechLang(optionLang, navLanguage, "hr-HR"), female, 0.92, 1.05, 1.0);
      u := SpeakInternal(text, cfg, available);
    }

    /** `speakNav(text, options)`: the navigation voice. */
    method SpeakNav(text: string, optionLang: string, priority: string, navLanguage: string, available: seq<SpeechVoice>)
      returns (u: Option<Utterance>)
      modifies this
      ensures u.Some? <==> text != "" && (old(voicesReady) || |available| > 0)
      ensures u.Some? ==> u.value == Utterance(text, NavConfig(SpeechLang(optionLang, navLanguage, "hr-HR"), old(male), priority))
      ensures text == "" ==> voicesReady == old(voicesReady) && female == old(female) && male == old(male)
      ensures text != "" ==> voicesReady == (old(voicesReady) || |available| > 0)
      ensures text != "" ==> female == Refilled(old(female), available, SpeechLang(optionLang, navLanguage, "hr-HR"), FemaleNames)
      ensures text != "" ==> male == Refilled(old(male), available, SpeechLang(optionLang, navLanguage, "hr-HR"), MaleNames)
    {
      var cfg := NavConfig(SpeechLang(optionLang, navLanguage, "hr-HR"), male, priority);
      u := SpeakInternal(text, cfg, available);
    }

    /** `speakNight(text, options)`: quieter and slower. */
    method SpeakNight(text: string, optionLang: string, navLanguage: string, available: seq<SpeechVoice>)
      returns (u: Option<Utterance>)
      modifies this
      ensures u.Some? <==> text != "" && (old(voicesReady) || |available| > 0)
      ensures u.Some? ==> u.value == Utterance(text,
        VoiceConfig(SpeechLang(optionLang, navLanguage, "hr-HR"), old(female), 0.88, 1.0, 0.65))
      ensures text == "" ==> voicesReady == old(voicesReady) && female == old(female) && male == old(male)
      ensures text != "" ==> voicesReady == (old(voicesReady) || |available| > 0)
      ensures text != "" ==> female == Refilled(old(female), available, SpeechLang(optionLang, navLanguage, "hr-HR"), FemaleNames)
      ensures text != "" ==> male == Refilled(old(male), available, SpeechLang(optionLang, navLanguage, "hr-HR"), MaleNames)
    {
      var cfg := VoiceConfig(SpeechLang(optionLang, navLanguage, "hr-HR"), female, 0.88, 1.0, 0.65);
      u := SpeakInternal(text, cfg, available);
    }

    /** `speakChild(text, options)`. */
    method SpeakChild(text: string, optionLang: string, navLanguage: string, available: seq<SpeechVoice>)
      returns (u: Option<Utterance>)
      modifies this
      ensures u.Some? <==> text != "" && (old(voicesReady) || |available| > 0)
      ensures u.Some? ==> u.value == Utterance(text,
        VoiceConfig(SpeechLang(optionLang, navLanguage, "hr-HR"), old(female), 0.9, 1.08, 1.0))
      ensures text == "" ==> voicesReady == old(voicesReady) && female == old(female) && male == old(male)
      ensures text != "" ==> voicesReady == (old(voicesReady) || |available| > 0)
      ensures text != "" ==> female == Refilled(old(female), available, SpeechLang(optionLang, navLanguage, "hr-HR"), FemaleNames)
      ensures text != "" ==> male == Refilled(old(male), available, SpeechLang(optionLang, navLanguage, "hr-HR"), MaleNames)
    {
      var cfg := VoiceConfig(SpeechLang(optionLang, navLanguage, "hr-HR"), female, 0.9, 1.08, 1.0);
      u := SpeakInternal(text, cfg, available);
    }

    /** `speakAir(text, options)`: the male voice, falling back to "en-US". */
    method SpeakAir(text: string, optionLang: string, navLanguage: string, available: seq<SpeechVoice>)
      returns (u: Option<Utterance>)
      modifies this
      ensures u.Some? <==> text != "" && (old(voicesReady) || |available| > 0)
      ensures u.Some? ==> u.value == Utterance(text,
        VoiceConfig(SpeechLang(optionLang, navLanguage, "en-US"), old(male), 0.9, 0.95, 1.0))
      ensures text == "" ==> voicesReady == old(voicesReady) && female == old(female) && male == old(male)
      ensures text != "" ==> voicesReady == (old(voicesReady) || |available| > 0)
      ensures text != "" ==> female == Refilled(old(female), available, SpeechLang(optionLang, navLanguage, "en-US"), FemaleNames)
      ensures text != "" ==> male == Refilled(old(male), available, SpeechLang(optionLang, navLanguage, "en-US"), MaleNames)
    {
      var cfg := VoiceConfig(SpeechLang(optionLang, navLanguage, "en-US"), male, 0.9, 0.95, 1.0);
      u := SpeakInternal(text, cfg, available);
    }

    /** The `onvoiceschanged` handler: forgets both cached voices. */
    method OnVoicesChanged()
      modifies this
      ensures !voicesReady && female.None? && male.None?
    {
      female, male, voicesReady := None, None, false;
    }
  }
}
