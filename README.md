# TBW logic core in Dafny

This project models the small logic modules of the TBW ("TBW AI PREMIUM") web
app: the booking concierge (keyword intent, city detection, curated demo
suggestions, the action list, the booking.com deep link and the dialogue
state of the booking modal), the flat key-value store in `localStorage` and
everything built on it (language selection, permission flags, parental
pauses, safe mode, the SOS flag, the robot gate, the last-event records and
the append-only decision logs), the small state machines (the simulated
navigation-risk engine, the location `finish` latch, driver-voice authority,
the cached voice choice, audio ducking) and the value-only decision rules
(impact, child danger, parking and blind-spot assist, injury and fatigue,
auto-resolve, install mode, operator locale, the context and override
keyword triggers, the parental form validator and the date phrases).

Conventions of the model:

- `localStorage` is a class `WebStorage.LocalStorage`. Its `items` maps each
  key to a `Raw` item. An item is either `Json(v)`, the text
  `JSON.stringify(v)`, or `Invalid(text)`, a text that does not parse. Read
  functions take the map, and the operations that write are methods with
  `modifies ls`.
- `Date.now()` is an `int` parameter `now`. `Math.random()` is a `real` in
  `[0, 1)`. The browser's language, user agent, voice list and probe outcomes
  are parameters too.
- JavaScript values are the datatype `Json.Value`. Truthiness is
  `Json.Truthy`. A missing or falsy string argument that the source only uses
  through `x || d` is `""`.
- `includes` is the substring predicate `Text.Contains`. `trim` is
  `Text.Trim` over the JavaScript white-space characters. `toLowerCase` and
  `toUpperCase` are per-character tables (`Text.LowerChar`,
  `Text.UpperChar`) over ASCII, Latin-1 and Latin Extended-A: every
  one-character case pair of those blocks, Ÿ/ÿ, and the one-way upper-case
  mappings of ı, ſ and µ. This covers every keyword of the source
  (`smještaj`, `vozač`, `münchen`, …).
- Module-level or closure state becomes a class: `Voice.VoiceEngine`,
  `VoiceAuthority.Authority`, `Audio.AudioDuck`, `NavRiskEngine.Engine`,
  `LocationGate.Gate` and `BookingModal.Modal`. Callbacks and `speak` are
  recorded as sequences of events.

## Model

| member | source | states |
|---|---|---|
| WebStorage.LocalStorage.GetItem | src/tbw/core/storage.js:5 | `getItem` returns an item exactly when the key is present, and then that key's item |
| WebStorage.LocalStorage.SetItem | src/tbw/core/storage.js:15 | `setItem` replaces that one key's item and keeps every other key |
| WebStorage.LocalStorage.RemoveItem | src/tbw/sos/SOSProtocol.js:29 | `removeItem` deletes that key and keeps every other key |
| Json.FieldOr | src/tbw/booking/bookingEngine.js:11 | `s[k] \|\| d` is the stored value when it is present and truthy, and the default otherwise |
| Json.Field | src/tbw/global/GlobalSync.js:15 | a property read has a value exactly when the value is an object that has the key |
| Json.Parse | src/tbw/core/storage.js:6-8 | `JSON.parse` fails exactly on the invalid texts |
| Storage.ReadStore | src/tbw/core/storage.js:3-10 | `readStore` gives `{}` when nothing is stored or the text does not parse, and the stored object otherwise |
| Storage.Written | src/tbw/core/storage.js:12-17 | a write touches only the store key and keeps every other item |
| Storage.ReadAfterWrite | src/tbw/core/storage.js:12-17 | after `writeStore(patch)`, each key of the patch reads as its patch value and every other key keeps its earlier value |
| Storage.WriteIdempotent | src/tbw/core/storage.js:13-16 | applying the same patch twice equals applying it once |
| Storage.WriteStore | src/tbw/core/storage.js:12-17 | the new contents are the shallow merge `{ ...prev, ...patch }`, and the return value is exactly what a following `readStore` gives |
| Storage.GetFlag | src/tbw/core/storage.js:19-22 | `getFlag` gives the stored value only when it is a boolean, and the fallback otherwise |
| Storage.SetFlag | src/tbw/core/storage.js:24-26 | `setFlag(k, v)` writes `!!v` under `k` and returns the store as read back |
| Storage.FlagAfterSetFlag | src/tbw/core/storage.js:19-26 | after `setFlag(k, v)`, `getFlag(k, _)` is `!!v`, and every other flag is unchanged |
| Text.TrimSpec | src/tbw/booking/bookingEngine.js:26 | `trim` removes exactly the leading and trailing white space; the result is an infix that neither starts nor ends with white space |
| Text.TrimIdempotent | src/tbw/booking/BookingModal.jsx:87 | trimming an already trimmed text changes nothing |
| Text.Utf16Length | src/tbw/parental/ParentalPanel.jsx:25-29 | `length` counts UTF-16 code units: at least one and at most two per character |
| Text.Utf16LengthBmp | src/tbw/parental/ParentalPanel.jsx:25-29 | on text of the Basic Multilingual Plane `length` is the number of characters |
| Text.LowerChar | src/tbw/booking/bookingEngine.js:26 | a lowercased character is never upper case, an upper-case one (Ÿ included) becomes its lower-case partner, and any other is unchanged |
| Text.UpperChar | src/tbw/booking/bookingEngine.js:66 | an uppercased character is never lower case, a lower-case one becomes its upper-case partner, ı becomes I, ſ becomes S, µ becomes Μ, and any other is unchanged |
| Text.LowerUpperChar | src/tbw/booking/bookingEngine.js:65-66 | lowercasing an uppercased character gives the character lowercased, for every character except ı, ſ, µ, ß and ŉ |
| Text.DotlessIRoundTrip | src/tbw/booking/bookingEngine.js:65-66 | the exception: ı stays ı when lowercased, but its upper case I lowercases to i |
| Text.Lower | src/tbw/booking/bookingEngine.js:26 | `toLowerCase` keeps the length and lowercases character by character |
| Text.Upper | src/tbw/global/GlobalSync.js:11 | `toUpperCase` keeps the length and uppercases character by character |
| Text.LowerIdempotent | src/tbw/safety/OverrideEngine.js:9 | lowercasing twice is lowercasing once |
| Text.UpperIdempotent | src/tbw/global/GlobalSync.js:11 | uppercasing twice is uppercasing once |
| Text.LowerOfUpper | src/tbw/core/contextBridge.js:3 | lowercasing an uppercased text gives the text lowercased, when the text has none of ı, ſ, µ, ß and ŉ |
| Text.LowerConcat | src/tbw/booking/bookingEngine.js:26 | lowercasing distributes over concatenation |
| Text.AnyContainsSpec | src/tbw/booking/bookingEngine.js:32 | `arr.some((p) => t.includes(p))` holds exactly when some phrase of the list occurs in the text |
| Text.EmptyAnyContains | src/tbw/core/contextBridge.js:3-10 | the empty text contains a phrase of the list exactly when the list has the empty phrase |
| Text.ContainsInContext | src/tbw/core/contextBridge.js:10 | a phrase that occurs in a text also occurs in any text around it |
| Text.BeforeFirst | src/tbw/core/i18n.js:34 | `split("-")[0]` is a prefix without "-", followed by "-" when it is shorter than the text |
| Text.NatToStringIsNumeral | src/tbw/ui/RobotGate.jsx:17 | `String(n)` is a non-empty string of decimal digits with no leading zero that denotes `n` |
| Text.NatToStringInjective | src/tbw/ui/RobotGate.jsx:17-22 | two numbers with the same decimal text are equal |
| I18n.GetDeviceLang | src/tbw/core/i18n.js:32-36 | the result is a supported language; it is the lowercased part before "-" when that is supported, and "en" otherwise |
| I18n.DeviceLangRegion | src/tbw/core/i18n.js:33-35 | "hr-HR" gives "hr" |
| I18n.DeviceLangCase | src/tbw/core/i18n.js:33 | "DE" gives "de" |
| I18n.DeviceLangUnsupported | src/tbw/core/i18n.js:35 | "pt-BR" gives the default "en" |
| I18n.DeviceLangMissing | src/tbw/core/i18n.js:33 | a missing browser language gives "en" |
| I18n.GetLang | src/tbw/core/i18n.js:38-42 | the result is always a supported language; a stored supported `tbwLang` takes priority over the device language; a truthy unsupported stored value gives "en" whatever the device says; a falsy or missing one gives the device language |
| I18n.GetLangAfterSetLang | src/tbw/core/i18n.js:40-47 | after storing a supported language, `getLang()` returns it |
| I18n.SetLang | src/tbw/core/i18n.js:44-48 | an unsupported language writes nothing and returns `getLang()`; a supported one is stored and returned, and `getLang()` then agrees |
| I18n.StringsTables | src/tbw/core/i18n.js:6-30 | only "en" and "hr" have tables |
| I18n.EnglishComplete | src/tbw/core/i18n.js:7-28 | no string of either table is empty, so the `\|\|` fallbacks only apply to missing keys |
| I18n.TranslationFallback | src/tbw/core/i18n.js:50-54 | `t(key)` is the Croatian string in Croatian, the English string in every other language, and the key itself when no table has it |
| Permissions.FlagsAfterProbe | src/tbw/core/permissions.js:43-51 | a probe overwrites the ok flag with its result; remembered is set on success and kept otherwise; afterwards `permissionsRememberedOk()` equals the result |
| Permissions.EnsurePermissions | src/tbw/core/permissions.js:8-47 | it answers `{ ok: true }` without probing exactly when both flags are set; otherwise `ok` is `locOk && micOk && camOk` from the injected probes, and the flags are updated |
| Voice.LangPrefix | src/tbw/core/voice.js:20 | `lang.slice(0, 2)` is the first two characters, or all of a shorter text |
| Voice.FindFrom | src/tbw/core/voice.js:19-22 | `list.find` gives the least index that fits, and none exactly when no voice fits |
| Voice.PickVoice | src/tbw/core/voice.js:17-25 | the first voice of the language whose name matches, else the first voice of the language, else `list[0]`; none only for an empty list |
| Voice.MalePatternOverlapsFemale | src/tbw/core/voice.js:35-43 | the male pattern also matches "female" and "woman" names, because it has no word boundaries |
| Voice.SpeechLang | src/tbw/core/voice.js:88 | the option language, else the browser language, else the function's default |
| Voice.NavConfig | src/tbw/core/voice.js:100-111 | rate 0.85 and pitch 0.9 exactly when the priority is "critical", otherwise 0.9 and 0.95, with the male voice at volume 1 |
| Voice.VoiceEngine.constructor | src/tbw/core/voice.js:6-8 | no voices are ready or chosen at first |
| Voice.Refilled | src/tbw/core/voice.js:27-48 | one cache slot after `ensureVoices`: a chosen voice is kept, an empty slot gets `pickVoice` from a non-empty list and stays empty otherwise |
| Voice.RefilledSticks | src/tbw/core/voice.js:30-44 | a voice chosen from a non-empty list is present and is kept by every later `ensureVoices`, whatever its list and language |
| Voice.VoiceEngine.EnsureVoices | src/tbw/core/voice.js:27-48 | an empty voice list changes nothing; otherwise voices become ready and each empty slot gets `pickVoice`; a chosen voice is never replaced |
| Voice.VoiceEngine.SpeakInternal | src/tbw/core/voice.js:62-80 | empty text changes nothing and yields nothing; otherwise the cache is the one `ensureVoices(cfg.lang)` leaves (readiness and both slots), and an utterance with the given settings results exactly when voices are then ready |
| Voice.VoiceEngine.Speak | src/tbw/core/voice.js:87-97 | the concierge settings: the female voice cached before the call, rate 0.92, pitch 1.05, volume 1, language falling back to "hr-HR"; empty text leaves the cache unchanged, other text leaves it as `ensureVoices` of that language does |
| Voice.VoiceEngine.SpeakNav | src/tbw/core/voice.js:100-111 | the utterance carries `NavConfig` for the priority, with the male voice cached before the call; the new cache as for `speak` |
| Voice.VoiceEngine.SpeakNight | src/tbw/core/voice.js:114-124 | the night settings: female voice, rate 0.88, pitch 1.0, volume 0.65; the new cache as for `speak` |
| Voice.VoiceEngine.SpeakChild | src/tbw/core/voice.js:127-137 | the child settings: female voice, rate 0.9, pitch 1.08, volume 1; the new cache as for `speak` |
| Voice.VoiceEngine.SpeakAir | src/tbw/core/voice.js:140-150 | the air and marine settings: male voice, rate 0.9, pitch 0.95, language falling back to "en-US"; the new cache as for `speak`, filled for that language |
| Voice.VoiceEngine.OnVoicesChanged | src/tbw/core/voice.js:154-158 | both cached voices are forgotten and voices are no longer ready |
| DateParser.WeekendIsFridayToSunday | src/tbw/core/dateParser.js:16-29 | the weekend starts 0 to 6 days from today, on a Friday, and ends exactly two days later |
| DateParser.NewYearFirst | src/tbw/core/dateParser.js:7-13 | a New Year's phrase wins over "vikend" and gives 2025-12-31 to 2026-01-02 |
| DateParser.ParseIgnoresCase | src/tbw/core/dateParser.js:4-33 | matching ignores case, and a text with no phrase gives `null` |
| Affiliate.AffiliateParamsOrdered | src/tbw/core/affiliate.js:5-12 | the keys come in the order ss, checkin, checkout, group_adults, aid |
| Affiliate.AffiliateParamsLookup | src/tbw/core/affiliate.js:5-12 | each parameter is present exactly when its source value is truthy (so zero persons is omitted), with that value; no other key is present |
| Affiliate.BuildAffiliateUrl | src/tbw/core/affiliate.js:1-15 | the constant booking.com base, with the parameters in order, each present exactly when its value is truthy |
| Urls.ParamConcat | src/tbw/booking/bookingEngine.js:77-80 | a parameter lookup in a concatenation finds the first part's parameter first |
| Urls.ParamOptional | src/tbw/core/affiliate.js:5 | a conditional `set` gives the key its value when the condition holds, and nothing otherwise |
| ContextBridge.DetectContextTriggerSpec | src/tbw/core/contextBridge.js:2-11 | the trigger fires exactly when one of the eleven phrases occurs in the lowercased transcript |
| ContextBridge.EmptyNeverTriggers | src/tbw/core/contextBridge.js:3-10 | a missing or empty transcript never triggers |
| ContextBridge.TriggerExtends | src/tbw/core/contextBridge.js:10 | any text around a triggering transcript still triggers |
| ContextBridge.TriggerIgnoresCase | src/tbw/core/contextBridge.js:3 | the lower-cased transcript triggers exactly when the transcript does, and so does the upper-cased one when it has none of ı, ſ, µ, ß and ŉ |
| ContextBridge.LateTriggers | src/tbw/core/contextBridge.js:6 | "Kasnimo!" triggers |
| ContextBridge.ShouldBridgeToBooking | src/tbw/core/contextBridge.js:13-15 | the bridge holds exactly when both signals are truthy |
| ContextBridge.BridgeNeedsBoth | src/tbw/core/contextBridge.js:13-15 | speech alone or a risk alone never bridges |
| Audio.AudioDuck.constructor | src/tbw/core/audio.js:1 | no ducking at first |
| Audio.AudioDuck.DuckAudioStart | src/tbw/core/audio.js:3-15 | the start time is recorded, and `isDucking()` holds exactly when it is not 0 |
| Audio.AudioDuck.DuckAudioEnd | src/tbw/core/audio.js:9-15 | whatever came before, ducking is over, so a second call changes nothing |
| BookingEngine.GetPlanMode | src/tbw/booking/bookingEngine.js:9-12 | the stored mode when it is truthy, otherwise "TRIAL" |
| BookingEngine.SetPlanMode | src/tbw/booking/bookingEngine.js:13-15 | the mode is written into the store under its key |
| BookingEngine.PlanModeAfterSet | src/tbw/booking/bookingEngine.js:9-15 | after `setPlanMode(m)` the plan mode is `m`, or "TRIAL" when `m` is falsy |
| BookingEngine.GetAffiliateIds | src/tbw/booking/bookingEngine.js:17-20 | the stored ids when they are truthy, otherwise three empty ids |
| BookingEngine.SetAffiliateIds | src/tbw/booking/bookingEngine.js:21-23 | the stored ids become the current ids merged with the given ones |
| BookingEngine.AffiliateIdsAfterSet | src/tbw/booking/bookingEngine.js:17-23 | after `setAffiliateIds(ids)` each given id reads back as given, and every other id keeps its earlier value |
| BookingEngine.FirstHit | src/tbw/booking/bookingEngine.js:48 | the index of the first category hit is within the list |
| BookingEngine.FirstHitSpec | src/tbw/booking/bookingEngine.js:32-48 | no category before the hit has a keyword in the text, and the hit has one |
| BookingEngine.DetectBookingIntentSpec | src/tbw/booking/bookingEngine.js:29-50 | the intent is the first category, in declaration order, with a keyword in the lowercased and trimmed transcript; `null` exactly when none has one |
| BookingEngine.IntentNamesCover | src/tbw/booking/bookingEngine.js:34-46 | every category's name is one of the eleven intents |
| BookingEngine.DetectedIntentIsKnown | src/tbw/booking/bookingEngine.js:48-49 | a detected intent is one of the eleven names |
| BookingEngine.NoEmptyKeyword | src/tbw/booking/bookingEngine.js:35-45 | no category's keywords occur in the empty text |
| BookingEngine.EmptyHasNoIntent | src/tbw/booking/bookingEngine.js:25-49 | a missing or empty transcript gives `null` |
| BookingEngine.LinijaIsFerry | src/tbw/booking/bookingEngine.js:39-48 | "linija" with no hotel, taxi, rent or flight keyword is a ferry request, never bus, because ferry is declared first |
| BookingEngine.CapCitySpec | src/tbw/booking/bookingEngine.js:62-67 | "" stays ""; both spellings of München in any case become "Munich"; any other name only has its first character uppercased |
| BookingEngine.CapCityMunich | src/tbw/booking/bookingEngine.js:64-65 | "munchen", "München" and "MUNCHEN" all become "Munich" |
| BookingEngine.CapCityIdempotent | src/tbw/booking/bookingEngine.js:62-67 | capitalising twice is capitalising once |
| BookingEngine.FirstCity | src/tbw/booking/bookingEngine.js:56-58 | the index of the first city mentioned is within the list |
| BookingEngine.FirstCitySpec | src/tbw/booking/bookingEngine.js:56-58 | no city before the one found is mentioned, and the one found is |
| BookingEngine.CityOfSpec | src/tbw/booking/bookingEngine.js:52-60 | the city is the capitalised first known city that occurs in the normalised transcript, and the fallback unchanged when none occurs |
| BookingEngine.CityOfEmpty | src/tbw/booking/bookingEngine.js:57-59 | a found city is never empty, so the result is empty only for an empty fallback |
| BookingEngine.ExtractCity | src/tbw/booking/bookingEngine.js:52-60 | the loop with its early return computes `CityOf` |
| BookingEngine.PickDemoCity | src/tbw/booking/bookingEngine.js:136-138 | a city with data is kept, and every result has data |
| BookingEngine.AlwaysSplit | src/tbw/booking/bookingEngine.js:91-138 | only Split has data, so every city is served from Split's |
| BookingEngine.SuggestionsSpec | src/tbw/booking/bookingEngine.js:140-160 | every city gets Split's list for the intent, and the list is empty exactly for an unknown intent |
| BookingEngine.PrimaryAction | src/tbw/booking/bookingEngine.js:166-196 | there is an intent-specific action exactly for the eleven intents |
| BookingEngine.ConciergeActions | src/tbw/booking/bookingEngine.js:162-205 | one action for an unknown intent and two for a known one; the intent's action comes first and "Show Plan B" is always last; a missing city is "Split" |
| BookingEngine.BookingSearchUrl | src/tbw/booking/bookingEngine.js:73-81 | `ss` is `q + " " + city` trimmed, with `q` defaulting to "accommodation", and `lang` is the current supported language |
| BookingEngine.GoogleMapsSearchUrl | src/tbw/booking/bookingEngine.js:83-88 | `api` is "1" and `query` the search text |
| BookingModal.FinalsTextConcat | src/tbw/booking/BookingModal.jsx:57-61 | handling results in two batches adds the same text to the buffer as handling them in one |
| BookingModal.FinalsOfOne | src/tbw/booking/BookingModal.jsx:59-61 | a final result adds its text and one space to the buffer, and an interim one adds its text to the interim part only |
| BookingModal.Good | src/tbw/booking/BookingModal.jsx:97 | at most three recommendations |
| BookingModal.Bad | src/tbw/booking/BookingModal.jsx:98 | at most two warnings |
| BookingModal.Take | src/tbw/booking/BookingModal.jsx:97-98 | `slice(0, n)` is the prefix of length `min(n, length)` |
| BookingModal.FiltersConcat | src/tbw/booking/BookingModal.jsx:97-98 | both filters keep source order: they distribute over concatenation |
| BookingModal.FiltersPartition | src/tbw/booking/BookingModal.jsx:97-98 | every item lands in exactly one filter, according to its `avoid` flag |
| BookingModal.SelectionSpec | src/tbw/booking/BookingModal.jsx:96-101 | suggestions are the first up to three non-avoid items and whyNot the first up to two avoid items, in source order; no item is in both |
| BookingModal.Reply | src/tbw/booking/BookingModal.jsx:104-108 | the reply names the top recommendation when it has a title, and uses the generic phrase otherwise |
| BookingModal.LeisureTopTitles | src/tbw/booking/bookingEngine.js:94-107 | the picks heading Split's accommodation, food, events and sights lists have titles |
| BookingModal.TransportTopTitles | src/tbw/booking/bookingEngine.js:112-130 | the picks heading Split's transport lists have titles |
| BookingModal.FirstIsRecommended | src/tbw/booking/BookingModal.jsx:96-97 | for every intent, Split's list starts with a titled item that is not to be avoided, and that item heads the recommendations |
| BookingModal.ReplyNamesFirstRecommendation | src/tbw/booking/BookingModal.jsx:96-108 | for every intent there is a recommendation, and the reply names the first one |
| BookingModal.Select | src/tbw/booking/BookingModal.jsx:90-98 | the selection steps compute `Choose`: the detected intent or "hotel", the found city or the fallback, and the two filtered lists |
| BookingModal.ChooseSpec | src/tbw/booking/BookingModal.jsx:90-101 | a selection always has one of the eleven intents and at least one recommendation; its city is empty only when the fallback is; recommendations are never to be avoided and warnings always are |
| BookingModal.ReplyNamesTopShown | src/tbw/booking/BookingModal.jsx:93-108 | after a selection, the reply names the first recommendation on display |
| BookingModal.GreetingNamesShownCity | src/tbw/booking/BookingModal.jsx:28-40 | the seed greeting says it looks for accommodation exactly when the shown intent is "hotel", and names the shown city |
| BookingModal.Modal.constructor | src/tbw/booking/BookingModal.jsx:7-20 | the fallback city defaults to "Split"; the shown text is the seed prompt; no intent, no lists, not listening |
| BookingModal.Modal.Actions | src/tbw/booking/BookingModal.jsx:22 | the actions for the shown city and the shown intent or "hotel": the intent's action first and Plan B last |
| BookingModal.Modal.OnOpen | src/tbw/booking/BookingModal.jsx:24-44 | with a seed prompt, the selection is made for it and the greeting spoken; without one, only the ready message is spoken |
| BookingModal.Modal.StartListening | src/tbw/booking/BookingModal.jsx:46-80 | without a recognizer, only the apology is spoken; otherwise the final-text buffer is reset to "" and listening is on unless `start` throws |
| BookingModal.Modal.OnResult | src/tbw/booking/BookingModal.jsx:55-65 | each final result from `resultIndex` on appends its text and one space to the buffer, which never loses text; the shown text is the buffer plus the interims, trimmed |
| BookingModal.Modal.StopListening | src/tbw/booking/BookingModal.jsx:82-109 | capture always stops; an empty trimmed transcript changes no selection and says nothing; otherwise the selection is made for the trimmed transcript and the reply is spoken |
| ParentalEngine.NoStoredProfile | src/tbw/parental/parentalEngine.js:13-15 | with no stored profile, `getParentalProfile()` is `null` |
| ParentalEngine.SaveParentalProfile | src/tbw/parental/parentalEngine.js:17-20 | the profile, the enabled flag and the time are written into the store |
| ParentalEngine.ProfileAfterSave | src/tbw/parental/parentalEngine.js:9-20 | after a save, parental mode is enabled and the stored profile is the one saved (`null` for a falsy profile) |
| ParentalEngine.PauseEscalation | src/tbw/parental/parentalEngine.js:22-26 | stores and returns `now + hours * 3600000`, with 4 hours by default |
| ParentalEngine.NoPauseStored | src/tbw/parental/parentalEngine.js:28-31 | with no stored end, which counts as 0, the escalation is paused only before time 0 |
| ParentalEngine.PausedBeforeEnd | src/tbw/parental/parentalEngine.js:24-31 | after a pause is stored, the escalation is paused exactly before its end |
| ParentalEngine.ClearPause | src/tbw/parental/parentalEngine.js:33-35 | stores 0 as the end |
| ParentalEngine.ClearedNotPaused | src/tbw/parental/parentalEngine.js:28-35 | after `clearPause()`, no time from 0 on is paused |
| ParentalPanel.InitialFormCannotSave | src/tbw/parental/ParentalPanel.jsx:6-31 | the freshly opened form cannot be saved |
| ParentalPanel.NotifyFields | src/tbw/parental/ParentalPanel.jsx:37-42 | email is "" unless email is checked; phone is "" unless call or SMS is checked; `sms` and `call` equal the checkboxes exactly |
| ParentalPanel.SavedContactPresent | src/tbw/parental/ParentalPanel.jsx:24-40 | a savable form always saves at least one non-empty contact |
| ParentalPanel.CanSaveIgnoresDetails | src/tbw/parental/ParentalPanel.jsx:23-31 | role, country and language play no part in whether the form can be saved |
| ParentalPanel.TwoEmojiNameSaves | src/tbw/parental/ParentalPanel.jsx:29-30 | a name of two emoji is four code units long, so with a usable email channel and all consents the form can be saved |
| ParentalPanel.Save | src/tbw/parental/ParentalPanel.jsx:23-46 | it saves exactly when the trimmed name has at least 3 UTF-16 code units, a channel is usable (email over 3, phone over 5 code units) and all four consents are given; otherwise nothing is written |
| ParentalPanel.SavedProfileReadsBack | src/tbw/parental/ParentalPanel.jsx:35-44 | after a save, parental mode is on and the stored profile is the form's |
| RobotGate.Operand | src/tbw/ui/RobotGate.jsx:15-16 | `Math.floor(2 + r * 7)` lies in 2..8 |
| RobotGate.MakeChallenge | src/tbw/ui/RobotGate.jsx:14-18 | both operands lie in 2..8 |
| RobotGate.ChallengeAnswer | src/tbw/ui/RobotGate.jsx:17 | the answer is the one- or two-digit decimal numeral of `a + b` |
| RobotGate.AcceptedAnswerIsSum | src/tbw/ui/RobotGate.jsx:17-22 | any accepted numeral denotes `a + b` |
| RobotGate.Submit | src/tbw/ui/RobotGate.jsx:21-26 | the check passes exactly when the box is checked and the trimmed answer equals `ans`; only a pass writes the store |
| RobotGate.RobotOkAfterPass | src/tbw/ui/RobotGate.jsx:7-23 | after a pass, `robotOk()` holds |
| LocationGate.Gate.constructor | src/tbw/permissions/LocationGate.jsx:4-5 | not done, idle, nothing delivered |
| LocationGate.Gate.Finish | src/tbw/permissions/LocationGate.jsx:7-12 | the first call delivers its payload and sets "done"; later calls change nothing, so `onGranted` runs at most once |
| LocationGate.Gate.Request | src/tbw/permissions/LocationGate.jsx:14-25 | the status becomes "working"; without the geolocation API, `NO_GEO_API` is delivered; after completion the status stays "working" |
| NavRiskEngine.PickEvent | src/tbw/navigation/NavRiskEngine.js:13-35 | the tick's event is one of the two demo events |
| NavRiskEngine.Engine.constructor | src/tbw/navigation/NavRiskEngine.js:8-10 | no timer, not active, nothing emitted |
| NavRiskEngine.Engine.Start | src/tbw/navigation/NavRiskEngine.js:30-32 | creates an interval unless one exists, so a second `start` creates none |
| NavRiskEngine.Engine.Tick | src/tbw/navigation/NavRiskEngine.js:32-40 | while active, nothing happens; otherwise the engine becomes active and emits `onRisk(true)`, `onClear(null)` and `onClear(ev)` in that order |
| NavRiskEngine.Engine.Stop | src/tbw/navigation/NavRiskEngine.js:43-46 | the timer is cleared and a raised risk stays raised |
| NavRiskEngine.Engine.ClearRisk | src/tbw/navigation/NavRiskEngine.js:48-52 | the risk is lowered, then `onRisk(false)` and `onClear(null)` are emitted |
| NavRiskEngine.ClearRearms | src/tbw/navigation/NavRiskEngine.js:33-52 | after `clear()`, the next firing raises the risk again |
| SOSProtocol.DetectImpactPriority | src/tbw/sos/SOSProtocol.js:13-19 | IMPACT above 3.5, then CRASH_SOUND above 0.85, then SILENCE above 15000 ms, then `null` |
| SOSProtocol.ThresholdsAreStrict | src/tbw/sos/SOSProtocol.js:15-18 | readings exactly at the thresholds give `null` |
| SOSProtocol.StartSOS | src/tbw/sos/SOSProtocol.js:21-34 | marks SOS active, stores the payload with the time, and returns true |
| SOSProtocol.StopSOS | src/tbw/sos/SOSProtocol.js:28-34 | removes the active item, so SOS is no longer active |
| SOSProtocol.LastRecordHoldsPayload | src/tbw/sos/SOSProtocol.js:23 | the last record holds the payload given, with the start time |
| SOSProtocol.BuildOperatorPayload | src/tbw/sos/SOSProtocol.js:36-54 | country defaults to "HR" and lang to "en"; source and confidence are constant; the other fields are passed through |
| ChildSOS.HeatLockedFirst | src/tbw/sos/ChildSOS.js:14 | a locked car at 30 °C or more is heat-locked, whatever the response or age |
| ChildSOS.ChildCheckCases | src/tbw/sos/ChildSOS.js:14-17 | when not heat-locked: no response under 18 months, then no response at 28 °C or more; a response gives `null` |
| ChildSOS.EscalateChildSOS | src/tbw/sos/ChildSOS.js:20-26 | it echoes the reason, with an automatic call at priority CRITICAL |
| ParkingBlindSpot.Warning | src/tbw/assist/ParkingBlindSpot.js:8-14 | a warning with its message, or exactly `{ warn: false }` |
| ParkingBlindSpot.AssistThresholds | src/tbw/assist/ParkingBlindSpot.js:7-35 | parking warns exactly at or below 10 km/h closer than 0.5; blind spot exactly with the signal and closer than 0.7; roundabout exactly above 30 |
| ParkingBlindSpot.AssistBoundaries | src/tbw/assist/ParkingBlindSpot.js:8-28 | exactly 30 km/h at the roundabout does not warn; 10 km/h near an object does |
| ParkingBlindSpot.AdviceShape | src/tbw/assist/ParkingBlindSpot.js:14-34 | a result carries a message exactly when it warns |
| FatigueInjury.InjuryCases | src/tbw/safety/FatigueInjuryEngine.js:15-19 | LIKELY_INJURY exactly on an impact reading, even with pain words; POSSIBLE_INJURY only for pain words without one; otherwise NONE |
| FatigueInjury.LikelyInjuryIsImpact | src/tbw/safety/FatigueInjuryEngine.js:16 | a likely injury is exactly an IMPACT or CRASH_SOUND of `detectImpact` |
| FatigueInjury.FatigueAdvisory | src/tbw/safety/FatigueInjuryEngine.js:21-29 | a break is advised exactly from a score of 0.6 on; otherwise there is no message |
| SafeMode.ActivateSafeMode | src/tbw/safety/SafeModeEngine.js:11-15 | stores and returns `now + hours * 3600000`, with 24 hours by default |
| SafeMode.ActiveBeforeEnd | src/tbw/safety/SafeModeEngine.js:13-20 | after an activation, safe mode is on exactly before its end |
| SafeMode.LaterActivationWins | src/tbw/safety/SafeModeEngine.js:4-13 | a later, shorter activation shortens the window, so the 24-hour minimum is not enforced |
| SafeMode.ClearSafeMode | src/tbw/safety/SafeModeEngine.js:22-24 | removes the item |
| SafeMode.ClearedInactive | src/tbw/safety/SafeModeEngine.js:17-24 | after clearing, safe mode is off from time 0 on |
| Override.IsOverrideCommandSpec | src/tbw/safety/OverrideEngine.js:8-16 | the command is recognised exactly when one of the four phrases occurs in the lowercased text |
| Override.EmptyIsNoOverride | src/tbw/safety/OverrideEngine.js:8 | an omitted or empty text is no command |
| Override.OverrideIgnoresCase | src/tbw/safety/OverrideEngine.js:9 | a text and its lowercased form agree, and so does its uppercased form when it has none of ı, ſ, µ, ß and ŉ |
| Override.DotlessIBreaksUpperCase | src/tbw/safety/OverrideEngine.js:8-16 | "nastavı" is no override command, but its upper-case form is |
| Override.GoOnIsOverride | src/tbw/safety/OverrideEngine.js:11 | "Idemo dalje!" is an override |
| Override.ApplySilentSafetyBoost | src/tbw/safety/OverrideEngine.js:18-22 | always true, and no state |
| VoiceAuthority.ClassifyCases | src/tbw/voice/VoiceAuthority.js:14-17 | without a registered print every speaker is unknown; with one, exactly the driver's print is the driver and every other print a passenger |
| VoiceAuthority.Authority.constructor | src/tbw/voice/VoiceAuthority.js:8 | no driver print at first |
| VoiceAuthority.Authority.RegisterDriverVoice | src/tbw/voice/VoiceAuthority.js:10-12 | the print replaces any earlier one |
| VoiceAuthority.Authority.ClassifySpeaker | src/tbw/voice/VoiceAuthority.js:14-17 | classifies against the registered print |
| VoiceAuthority.ReRegisterReplaces | src/tbw/voice/VoiceAuthority.js:10-17 | after re-registering, the earlier driver is a passenger |
| VoiceAuthority.CommandAuthority | src/tbw/voice/VoiceAuthority.js:19-25 | a passenger may only report a hazard; every other role is always allowed; a refusal exactly carries a reason |
| GlobalSync.NormalizeRegion | src/tbw/global/GlobalSync.js:10-12 | a falsy code is "XX", and any other is upper-cased |
| GlobalSync.NormalizeRegionIdempotent | src/tbw/global/GlobalSync.js:10-12 | normalising twice is normalising once, and never gives "" |
| GlobalSync.CriticalNeedsConfirmation | src/tbw/global/GlobalSync.js:14-16 | `null` is not critical, and a merely truthy `confirmed` does not count |
| GlobalSync.Publish | src/tbw/global/GlobalSync.js:18-28 | only a critical event is stored, with the normalised region, and only then is the result true |
| GlobalSync.ReadLast | src/tbw/global/GlobalSync.js:30-36 | `null` when nothing is stored or the text does not parse |
| GlobalSync.ReadLastAfterPublish | src/tbw/global/GlobalSync.js:20-36 | after a publish, `readLast()` holds the event, the normalised region and the source |
| SynergyEngine.SameRuleAsGlobalSync | src/tbw/synergy/SynergyEngine.js:10-16 | the broadcast rule accepts exactly the events the region-sync rule does |
| SynergyEngine.Broadcast | src/tbw/synergy/SynergyEngine.js:18-25 | always stores the event without consulting `canBroadcast`, and returns true |
| SynergyEngine.LastBroadcast | src/tbw/synergy/SynergyEngine.js:27-33 | `null` when nothing is stored or the text does not parse |
| SynergyEngine.BroadcastTwice | src/tbw/synergy/SynergyEngine.js:19-33 | of two broadcasts, even unconfirmed ones, the later one is the last |
| OperatorBridge.ResolveLocale | src/tbw/operator/OperatorBridge.js:8-14 | a listed country's language, ignoring the user's; otherwise the user's language, else "en"; never "" |
| OperatorBridge.GermanSpeaking | src/tbw/operator/OperatorBridge.js:11 | "AT" and "DE" both resolve to "de" |
| OperatorBridge.BuildOperatorMessage | src/tbw/operator/OperatorBridge.js:16-38 | addressed to the country in its resolved language, with constant source, confidence and note and the time |
| OperatorBridge.MessageHasLanguage | src/tbw/operator/OperatorBridge.js:27 | the operator language is never empty |
| OperatorBridge.SendToOperator | src/tbw/operator/OperatorBridge.js:40-44 | always true |
| WeatherRouteBooking.AutoResolveBoundaries | src/tbw/auto/WeatherRouteBooking.js:7-9 | a drift of 20 minutes triggers and 19 does not; only a risk of exactly `true` counts |
| WeatherRouteBooking.AutoResolveMonotone | src/tbw/auto/WeatherRouteBooking.js:7-9 | a larger drift never withdraws an auto-resolve; a risk of exactly `true` resolves at any drift; any other risk resolves exactly from a drift of 20 minutes |
| WeatherRouteBooking.ProposalCases | src/tbw/auto/WeatherRouteBooking.js:11-22 | CONTINUE exactly for "STAY_ON_PLAN", otherwise ADJUST, each with its fixed message, whatever the destination |
| InstallMode.InstallModeOrder | src/tbw/system/InstallMode.js:8-14 | CAR_PANEL whenever "android auto" or "car" occurs, then TABLET, then MOBILE, else DESKTOP |
| InstallMode.InstallModeIgnoresCase | src/tbw/system/InstallMode.js:9 | the lower-cased user agent gives the same mode, and so does the upper-cased one when it has none of ı, ſ, µ, ß and ŉ |
| InstallMode.Capabilities | src/tbw/system/InstallMode.js:16-27 | each mode's set of `true` flags, and `{ basic }` for any other mode |
| InstallMode.BackgroundAudioModes | src/tbw/system/InstallMode.js:18-25 | background audio exactly on car panels and tablets; a phone gets the basic default |
| AppendLog.Stamped | src/tbw/legal/OwnerShield.js:11 | `{ ts: now, ...entry }` keeps every field of the entry, and the entry's own `ts` overrides the time |
| AppendLog.Append | src/tbw/legal/DecisionLog.js:9-13 | fails when the stored text is corrupt and changes nothing then; otherwise appends exactly one stamped entry to the stored list |
| AppendLog.ReadEntries | src/tbw/legal/DecisionLog.js:15-21 | `[]` for a missing or invalid log |
| AppendLog.AppendKeepsHistory | src/tbw/legal/OwnerShield.js:9-21 | after an append, the log reads as the earlier entries, in order, followed by the new one |
| AppendLog.ReadPriorAgree | src/tbw/legal/OwnerShield.js:10-17 | an existing list reads as the entries the append starts from |
| AppendLog.CorruptLogThrows | src/tbw/legal/OwnerShield.js:10 | a corrupt log makes the append fail, because its parse is unguarded |
| OwnerShield.LogDecision | src/tbw/legal/OwnerShield.js:9-13 | appends one stamped entry under the shield key, or fails on a corrupt log |
| OwnerShield.GetShieldLog | src/tbw/legal/OwnerShield.js:15-21 | `[]` for a missing or invalid log |
| DecisionLog.Log | src/tbw/legal/DecisionLog.js:9-13 | appends one stamped entry under the decision key, or fails on a corrupt log |
| DecisionLog.ReadLog | src/tbw/legal/DecisionLog.js:15-21 | `[]` for a missing or invalid log |

## Left out

- I/O that the source only passes along is not modelled: `window.open`, the `console.log` of `sendToOperator`, the synthesis calls of `speakInternal`, and `duckAudio`'s element volumes. An action carries the search it would open, and a speak call yields the utterance it would hand over.
- `URLSearchParams` percent-encoding and `toString` are not modelled. A URL is its base plus its ordered (key, value) pairs.
- `JSON.stringify` and `JSON.parse` are abstracted to "valid or invalid". A stored item is a value or an invalid text.
- `readStore` on valid JSON that is not an object (`null`, a number) reads as `{}`. In the source, `null` would make the callers throw, and a number or string would be read through its properties.
- Object spread of a non-object gives `{}`, as it does in JavaScript for `null` and numbers. The index properties that spreading a string or an array copies (`{ ts, ...["a"] }` is `{ 0: "a", ts }`) are not modelled, so `AppendLog.Stamped` of such an entry keeps only `ts`.
- `escalationPaused` compares the time with the stored field through `<`: numbers as numbers, `true` as 1, a falsy field as 0, and anything else as NaN (never paused). A numeric string such as "5" is not coerced as JavaScript's `<` coerces it.
- `isSafeModeActive` reads `Number(item || 0)`: a missing or empty item is 0, a stored number is that number, and every other item is NaN (never active), `true` and `null` included. Texts that are not JSON but that `Number` still reads as a number (such as "0x10" or "Infinity") are NaN in the model.
- A stored item is either the text `JSON.stringify` gives for a value or a text that is not JSON. Other spellings of valid JSON (such as "1.0" or " 1") are not modelled, so the model cannot tell them from the canonical text.
- SOSProtocol.IsSOSActive: the item `Json(Num(1))` stands for the exact text "1"; a stored "1.0", which the source does not count as active, is one of the spellings the model does not represent.
- `resolveLocale` looks only at the eight listed countries. Keys from JavaScript's object prototype (such as "constructor") are not modelled.
- I18n.TranslationFallback: the tables are plain maps, so a key that names a member of JavaScript's object prototype ("toString", "constructor", "__proto__", …) is a missing key and `t` returns the key. In the source, `dict[key]` finds the inherited member and `t` returns that function or object instead.
- BookingEngine.CapCitySpec, BookingEngine.CapCityIdempotent: the München table is a plain map, so a name that lowercases to a member of JavaScript's object prototype ("constructor", "toString", "valueOf", "__proto__", …) is capitalised like any other. In the source, `map[c.toLowerCase()]` finds the inherited member and `v.charAt` then throws a TypeError. `extractCity` only passes the ten known cities, none of which is such a name.
- BookingEngine.PickDemoCity: a city that names an object-prototype member ("constructor", "toString", "__proto__", …) has no data in the model and becomes "Split". In the source, `DEMO[city]` is truthy for it, so `pickDemoCity` keeps the city.
- BookingEngine.AlwaysSplit: for the same object-prototype names the source serves the city from the prototype member, not from Split; the lemma holds for every other city.
- BookingEngine.SuggestionsSpec: for an object-prototype city the source returns `undefined` for "hotel", "food", "events" and "sights", and throws a TypeError for the seven transport intents because `data.transport` is undefined; the model gives Split's lists.
- Voice prints, country codes and the other arguments the source compares with `===` are strings. Non-string arguments are not modelled.
- `toLowerCase` and `toUpperCase` use per-character tables over ASCII, Latin-1 and Latin Extended-A. Characters outside them, special cases that change length (such as "ß", "ŉ" and "İ") and locale rules are left out.
- Text.Lower: characters outside ASCII, Latin-1 and Latin Extended-A stay unchanged (Greek, Cyrillic and the rest are not lowered), and "İ" stays "İ" where JavaScript gives the two characters "i̇".
- Text.Upper: characters outside ASCII, Latin-1 and Latin Extended-A stay unchanged apart from µ, and "ß" and "ŉ" stay as they are where JavaScript gives two characters.
- Text.LowerOfUpper, Text.LowerUpperChar, ContextBridge.TriggerIgnoresCase, Override.OverrideIgnoresCase and InstallMode.InstallModeIgnoresCase: the upper-case half is stated only for texts without ı, ſ, µ, ß and ŉ. For each of these characters it is false in JavaScript too: "nastavı" is no override command, but "NASTAVI" is (`Override.DotlessIBreaksUpperCase`); "ß" and "ŉ" upper-case to two characters ("SS", "ʼN"), so "ßvejedno" is no override command, but "SSVEJEDNO" is. The model's `Upper` leaves ß and ŉ unchanged, so it cannot exhibit those two cases. For InstallMode the exclusion of ß and ŉ is stronger than JavaScript needs, since no install-mode phrase contains "ss" or an "n" after "ʼ".
- Sensor readings are real numbers, with no floating-point rounding. Hours in `pauseEscalation` and `activateSafeMode` are integers, so fractional hours are not modelled.
- `analyzeVoice` (src/tbw/safety/FatigueInjuryEngine.js:7-13) is not part of this model. Its outcome depends on binary floating-point sums.
- The parameters `onClear` and `onRisk` of `createNavRiskEngine` may be omitted. The model records the callback calls a present callback receives.
- `Date.toISOString` and its UTC shift are not modelled in `parseHumanDates`. The weekend dates are local day numbers.
- The timers of `LocationGate` (the fallback after 3500 ms) and of `NavRiskEngine` (every 30 s) are not timed. Their firings are explicit `Finish` and `Tick` calls in whatever order they happen.
- The recognizer's `onend` restart in src/tbw/booking/BookingModal.jsx:67-72 reads the `listening` value captured when listening started. It only restarts capture and changes no modelled state, so it is not modelled.
- BookingModal.Modal: the selection on display is kept as the transcript it was made for. `Shown` recomputes `intent`, `city`, `suggestions` and `whyNot` from it. Spoken messages are kept as utterances, and `Said` gives their text. The model does not store the four React state variables separately.
- The `why` texts of the demo suggestions are part of the data (`Pick.Why`), but no property is stated about them.
- Speech recognition itself is not modelled: `makeRecognizer` is whether a recognizer exists, `start` is whether it throws, and results arrive as the list `onresult` receives.
- `makeRecognizer` is imported by src/tbw/booking/BookingModal.jsx:4 from src/tbw/core/voice.js, but voice.js neither defines nor exports it (its exports are the five speakers at lines 87-150). As written, the module does not link. BookingModal.Modal.StartListening assumes a factory that returns a recognizer or nothing.
- The permission probes of `ensurePermissions` are parameters, and `getUserMedia` track stopping is not modelled.
- Strings are sequences of Unicode characters, while JavaScript's `length`, `slice` and `charAt` count UTF-16 code units. The form thresholds of `canSave` use `Text.Utf16Length`. `Voice.LangPrefix` takes the first two characters for `slice(0, 2)`, which agrees on language tags (ASCII). `CapCity` upper-cases the first character for `charAt(0)`, which agrees on the ten known cities; on a name starting above U+FFFF the source would split a surrogate pair.
- Voice.VoiceEngine.SpeakInternal: the utterance's `volume ?? 1` is the given volume, since every caller passes one.
