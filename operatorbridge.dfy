/**
 * Messages to an emergency operator, src/tbw/operator/OperatorBridge.js.
 * Country and language codes are strings, `""` for a falsy or missing one;
 * `Date.now()` is `now`.
 */
module OperatorBridge {
  import opened Wrappers
  import opened Json

  /** The operator language of each listed country. */
  const CountryLang: map<string, string> := map[
    "HR" := "hr", "DE" := "de", "AT" := "de", "IT" := "it", "FR" := "fr", "ES" := "es", "JP" := "ja", "CN" := "zh"]

  /** `resolveLocale({ country, userLang })`: the country's language, else the user's, else "en". */
  function ResolveLocale(country: string, userLang: string): (r: string)
    ensures r != ""
    ensures country in CountryLang ==> r == CountryLang[country]
    ensures country !in CountryLang && userLang != "" ==> r == userLang
    ensures country !in CountryLang && userLang == "" ==> r == "en"
  {
    if country in CountryLang then CountryLang[country]
    else if userLang != "" then userLang
    else "en"
  }

  /** Austria and Germany share German, whatever the user speaks. */
  lemma GermanSpeaking(userLang: string)
    ensures ResolveLocale("AT", userLang) == "de" && ResolveLocale("DE", userLang) == "de"
  {
  }

  datatype OperatorMessage = OperatorMessage(
    toCountry: string, operatorLang: string, source: string,
    incidentType: Option<Value>, location: Option<Value>, vehicleProfile: Option<Value>,
    sensors: Option<Value>, injuries: Option<Value>,
    confidence: string, note: string, ts: int)

  const Note: string := "Automated safety escalation. Voice + sensors analyzed."

  /** `buildOperatorMessage({...})`: addressed to `country` in its operator language. */
  function BuildOperatorMessage(country: string, userLang: string, location: Option<Value>, incidentType: Option<Value>,
                                sensors: Option<Value>, injuries: Option<Value>, vehicleProfile: Option<Value>, now: int)
    : (m: OperatorMessage)
    ensures m.toCountry == country && m.operatorLang == ResolveLocale(country, userLang)
    ensures m.source == "TBW AI PREMIUM" && m.confidence == "HIGH" && m.note == Note && m.ts == now
    ensures m.incidentType == incidentType && m.location == location && m.vehicleProfile == vehicleProfile
    ensures m.sensors == sensors && m.injuries == injuries
  {
    OperatorMessage(country, ResolveLocale(country, userLang), "TBW AI PREMIUM", incidentType, location,
                    vehicleProfile, sensors, injuries, "HIGH", Note, now)
  }

  /** The message never leaves the operator language empty. */
  lemma MessageHasLanguage(country: string, userLang: string, now: int)
    ensures BuildOperatorMessage(country, userLang, None, None, None, None, None, now).operatorLang != ""
  {
  }

  /** `sendToOperator(payload)`: only logs, and always reports success. */
  function SendToOperator(m: OperatorMessage): (r: bool)
    ensures r
  {
    true
  }
}
