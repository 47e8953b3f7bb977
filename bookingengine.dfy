/**
 * The booking concierge rules of src/tbw/booking/bookingEngine.js: plan mode
 * and affiliate ids in the store, keyword intent detection, city detection,
 * the curated demo suggestions and the list of actions offered.
 * `window.open` is not modelled: an action carries the search it would open.
 */
module BookingEngine {
  import opened Wrappers
  import opened Text
  import opened Json
  import opened WebStorage
  import opened Storage
  import opened Urls
  import I18n

  const PlanModeKey: string := "tbw_plan_mode"
  const AffiliateKey: string := "tbw_affiliate_ids"

  // ---------------------------------------------------------------- store

  /** `getPlanMode()`: the stored mode when it is truthy, otherwise "TRIAL". */
  function GetPlanMode(items: map<string, Raw>): (r: Value)
    ensures var s := ReadStore(items);
      (PlanModeKey in s && Truthy(s[PlanModeKey]) ==> r == s[PlanModeKey])
      && (!(PlanModeKey in s && Truthy(s[PlanModeKey])) ==> r == Str("TRIAL"))
  {
    FieldOr(ReadStore(items), PlanModeKey, Str("TRIAL"))
  }

  /** `setPlanMode(mode)`. */
  method SetPlanMode(ls: LocalStorage, mode: Value)
    modifies ls
    ensures ls.items == Written(old(ls.items), map[PlanModeKey := mode])
  {
    var _ := WriteStore(ls, map[PlanModeKey := mode]);
  }

  /** After `setPlanMode(m)`, the plan mode is `m`, or "TRIAL" when `m` is falsy. */
  lemma PlanModeAfterSet(items: map<string, Raw>, mode: Value)
    ensures GetPlanMode(Written(items, map[PlanModeKey := mode])) == if Truthy(mode) then mode else Str("TRIAL")
  {
    ReadAfterWrite(items, map[PlanModeKey := mode]);
  }

  const DefaultAffiliateIds: Value := Obj(map["booking" := Str(""), "airbnb" := Str(""), "transport" := Str("")])

  /** `getAffiliateIds()`: the stored ids when truthy, otherwise all three ids empty. */
  function GetAffiliateIds(items: map<string, Raw>): (r: Value)
    ensures var s := ReadStore(items);
      (AffiliateKey in s && Truthy(s[AffiliateKey]) ==> r == s[AffiliateKey])
      && (!(AffiliateKey in s && Truthy(s[AffiliateKey])) ==> r == DefaultAffiliateIds)
  {
    FieldOr(ReadStore(items), AffiliateKey, DefaultAffiliateIds)
  }

  /** The stored contents after `setAffiliateIds(ids)`: `{ ...getAffiliateIds(), ...ids }`. */
  function AffiliateIdsWritten(items: map<string, Raw>, ids: map<string, Value>): map<string, Raw> {
    Written(items, map[AffiliateKey := Obj(Spread(GetAffiliateIds(items)) + ids)])
  }

  /** `setAffiliateIds(ids)`. */
  method SetAffiliateIds(ls: LocalStorage, ids: map<string, Value>)
    modifies ls
    ensures ls.items == AffiliateIdsWritten(old(ls.items), ids)
  {
    var current := GetAffiliateIds(ls.items);
    var _ := WriteStore(ls, map[AffiliateKey := Obj(Spread(current) + ids)]);
  }

  /**
   * After `setAffiliateIds(ids)`, every id in `ids` reads back as given and
   * every other id keeps its previous value (starting from the three empty
   * defaults when none were stored).
   */
  lemma AffiliateIdsAfterSet(items: map<string, Raw>, ids: map<string, Value>, k: string)
    ensures var after := GetAffiliateIds(AffiliateIdsWritten(items, ids));
      && after.Obj?
      && (k in ids ==> Field(after, k) == Some(ids[k]))
      && (k !in ids ==> Field(after, k) == Field(Obj(Spread(GetAffiliateIds(items))), k))
  {
    var next := Obj(Spread(GetAffiliateIds(items)) + ids);
    ReadAfterWrite(items, map[AffiliateKey := next]);
    assert Truthy(next);
  }

  // ---------------------------------------------------------------- intent

  /** `norm(txt)`: lowercased, then trimmed; a missing text is `""`. */
  function Norm(txt: string): string {
    Trim(Lower(txt))
  }

  /**
   * One intent category of `detectBookingIntent`: its name and its keywords.
   * The categories are constructors, in the order the source declares them.
   */
  datatype Category = Hotel | Taxi | Rent | Flight | Ferry | Train | Bus | Bike | Food | Events | Sights
  {
    function Name(): string {
      match this
      case Hotel => "hotel"
      case Taxi => "taxi"
      case Rent => "rent"
      case Flight => "flight"
      case Ferry => "ferry"
      case Train => "train"
      case Bus => "bus"
      case Bike => "bike"
      case Food => "food"
      case Events => "events"
      case Sights => "sights"
    }

    function Words(): seq<string> {
      match this
      case Hotel => ["hotel", "apartman", "apartmani", "smještaj", "soba", "resort", "booking"]
      case Taxi => ["taxi", "taksi", "uber", "bolt", "transfer", "vozač"]
      case Rent => ["rent", "rent a car", "rentacar", "iznajmi auto", "najam auta", "auto na najam"]
      case Flight => ["avion", "let", "flight", "zračna luka", "airport", "gate"]
      case Ferry => ["trajekt", "ferry", "katamaran", "gliser", "brod", "linija"]
      case Train => ["vlak", "train", "željezn", "kolodvor"]
      case Bus => ["bus", "autobus", "linija", "autobusni"]
      case Bike => ["bicikl", "bike", "biciklist", "staza", "renta bicikla"]
      case Food => ["restoran", "večera", "ručak", "pizza", "gastro", "konoba"]
      case Events => ["event", "događaj", "festival", "koncert", "izlazak", "club", "klub"]
      case Sights => ["znamenit", "što vidjeti", "atrakc", "muzej", "stari grad", "šetnja"]
    }
  }

  /** The categories in declaration order. */
  const Categories: seq<Category> := [Hotel, Taxi, Rent, Flight, Ferry, Train, Bus, Bike, Food, Events, Sights]

  /** The index of the first of `cats` with a keyword in `t`, or `|cats|` when there is none. */
  function FirstHit(t: string, cats: seq<Category>): (r: nat)
    ensures r <= |cats|
  {
    if cats == [] then 0
    else if AnyContains(t, cats[0].Words()) then 0
    else 1 + FirstHit(t, cats[1..])
  }

  /** No category before the hit has a keyword in `t`, and the hit has one. */
  lemma {:induction false} FirstHitSpec(t: string, cats: seq<Category>)
    ensures var r := FirstHit(t, cats);
      && (forall j :: 0 <= j < r ==> !AnyContains(t, cats[j].Words()))
      && (r < |cats| ==> AnyContains(t, cats[r].Words()))
  {
    if cats != [] && !AnyContains(t, cats[0].Words()) {
      FirstHitSpec(t, cats[1..]);
      assert forall j :: 1 <= j < |cats| ==> cats[j] == cats[1..][j - 1];
    }
  }

  /** `detectBookingIntent(transcript)`; `None` is `null`. */
  function DetectBookingIntent(transcript: string): Option<string> {
    var i := FirstHit(Norm(transcript), Categories);
    if i < |Categories| then Some(Categories[i].Name()) else None
  }

  /**
   * The intent is the first category, in declaration order, with a keyword
   * in the normalised transcript, and `None` exactly when no keyword occurs.
   */
  lemma DetectBookingIntentSpec(transcript: string)
    ensures var t := Norm(transcript); var r := DetectBookingIntent(transcript);
      r.None? <==> forall k :: 0 <= k < |Categories| ==> !AnyContains(t, Categories[k].Words())
    ensures var t := Norm(transcript); var r := DetectBookingIntent(transcript);
      r.Some? ==> (exists k :: 0 <= k < |Categories| && Categories[k].Name() == r.value &&
                     AnyContains(t, Categories[k].Words()) &&
                     (forall j :: 0 <= j < k ==> !AnyContains(t, Categories[j].Words())))
  {
    FirstHitSpec(Norm(transcript), Categories);
  }

  /** The names of the categories. */
  const IntentNames: set<string> := {"hotel", "taxi", "rent", "flight", "ferry", "train", "bus", "bike", "food", "events", "sights"}

  lemma IntentNamesCover(c: Category)
    ensures c.Name() in IntentNames
  {
  }

  /** Every detected intent is one of the eleven categories. */
  lemma DetectedIntentIsKnown(transcript: string)
    ensures DetectBookingIntent(transcript).Some? ==> DetectBookingIntent(transcript).value in IntentNames
  {
    var i := FirstHit(Norm(transcript), Categories);
    if i < |Categories| {
      IntentNamesCover(Categories[i]);
    }
  }

  /** No keyword is empty, so the empty text contains none of a category's keywords. */
  lemma NoEmptyKeyword(c: Category)
    ensures !AnyContains("", c.Words())
  {
    EmptyAnyContains(c.Words());
  }

  /** The empty text matches no category. */
  lemma NoIntentInEmpty()
    ensures FirstHit("", Categories) == |Categories|
  {
    forall k | 0 <= k < |Categories| ensures !AnyContains("", Categories[k].Words()) {
      NoEmptyKeyword(Categories[k]);
    }
    NoHitAtEnd("", Categories);
  }

  lemma NoHitAtEnd(t: string, cats: seq<Category>)
    requires forall k :: 0 <= k < |cats| ==> !AnyContains(t, cats[k].Words())
    ensures FirstHit(t, cats) == |cats|
  {
    FirstHitSpec(t, cats);
  }

  /** An empty (or missing) transcript has no intent. */
  lemma EmptyHasNoIntent()
    ensures DetectBookingIntent("") == None
  {
    assert Norm("") == "";
    NoIntentInEmpty();
  }

  lemma FerryHit(t: string)
    requires Contains(t, "linija")
    requires forall k :: 0 <= k < 4 ==> !AnyContains(t, Categories[k].Words())
    ensures FirstHit(t, Categories) == 4
  {
    assert Categories[4] == Ferry && Ferry.Words()[5] == "linija";
    AnyContainsSpec(t, Ferry.Words());
    FirstHitSpec(t, Categories);
  }

  /**
   * "linija" is a keyword of both ferry and bus; ferry is declared first, so
   * a transcript with "linija" and no hotel, taxi, rent or flight keyword is
   * a ferry request.
   */
  lemma LinijaIsFerry(transcript: string)
    requires Contains(Norm(transcript), "linija")
    requires forall k :: 0 <= k < 4 ==> !AnyContains(Norm(transcript), Categories[k].Words())
    ensures DetectBookingIntent(transcript) == Some("ferry")
  {
    FerryHit(Norm(transcript));
  }

  // ---------------------------------------------------------------- city

  /** The known cities, in the order they are tried. */
  const KnownCities: seq<string> := ["split", "zagreb", "zadar", "rijeka", "dubrovnik", "karlovac", "osijek", "munchen", "münchen", "berlin"]

  /**
   * `capCity(c)`: "" stays "", both spellings of München become "Munich",
   * anything else gets its first character upper-cased.
   */
  function CapCity(c: string): string {
    if c == [] then []
    else
      var v := if Lower(c) == "munchen" || Lower(c) == "münchen" then "Munich" else c;
      [UpperChar(v[0])] + v[1..]
  }

  lemma CapCitySpec(c: string)
    ensures c == [] <==> CapCity(c) == []
    ensures Lower(c) == "munchen" || Lower(c) == "münchen" ==> CapCity(c) == "Munich"
    ensures c != [] && Lower(c) != "munchen" && Lower(c) != "münchen" ==>
      var r := CapCity(c); |r| == |c| && r[0] == UpperChar(c[0]) && r[1..] == c[1..]
  {
  }

  /** Both spellings of München, in any case, become "Munich". */
  lemma CapCityMunich()
    ensures CapCity("munchen") == "Munich" && CapCity("München") == "Munich" && CapCity("MUNCHEN") == "Munich"
  {
    assert Lower("munchen") == "munchen";
    assert Lower("München") == "münchen";
    assert Lower("MUNCHEN") == "munchen";
  }

  /** Upper-casing the first character does not change the lower-cased word, unless it is ı, ſ, µ, ß or ŉ. */
  lemma LowerOfCapitalised(v: string)
    requires v != []
    ensures !IsCaseBreaker(v[0]) ==> Lower([UpperChar(v[0])] + v[1..]) == Lower(v)
  {
    LowerUpperChar(v[0]);
    LowerConcat([UpperChar(v[0])], v[1..]);
    LowerConcat([v[0]], v[1..]);
    assert v == [v[0]] + v[1..];
  }

  /** "Munich" is not a spelling of München, so it is capitalised as it stands. */
  lemma MunichIsPlain()
    ensures Lower("Munich") != "munchen" && Lower("Munich") != "münchen"
  {
    assert Lower("Munich") == "munich";
  }

  /** Capitalising twice is capitalising once. */
  lemma {:induction false} CapCityIdempotent(c: string)
    ensures CapCity(CapCity(c)) == CapCity(c)
  {
    if c != [] {
      var v := if Lower(c) == "munchen" || Lower(c) == "münchen" then "Munich" else c;
      var r := CapCity(c);
      assert r == [UpperChar(v[0])] + v[1..];
      LowerOfCapitalised(v);
      if v == "Munich" {
        MunichIsPlain();
      } else if IsCaseBreaker(v[0]) {
        assert Lower(r)[0] != 'm';
      }
      CapCitySpec(r);
    }
  }

  /** The index of the first of `cities` that `t` contains, or `|cities|` when there is none. */
  function FirstCity(t: string, cities: seq<string>): (r: nat)
    ensures r <= |cities|
  {
    if cities == [] then 0
    else if Contains(t, cities[0]) then 0
    else 1 + FirstCity(t, cities[1..])
  }

  /** No city before the one found is mentioned, and the one found is. */
  lemma {:induction false} FirstCitySpec(t: string, cities: seq<string>)
    ensures var r := FirstCity(t, cities);
      && (forall j :: 0 <= j < r ==> !Contains(t, cities[j]))
      && (r < |cities| ==> Contains(t, cities[r]))
  {
    if cities != [] && !Contains(t, cities[0]) {
      FirstCitySpec(t, cities[1..]);
      assert forall j :: 1 <= j < |cities| ==> cities[j] == cities[1..][j - 1];
    }
  }

  /** The city `extractCity` finds. */
  function CityOf(transcript: string, fallbackCity: string): string {
    var i := FirstCity(Norm(transcript), KnownCities);
    if i < |KnownCities| then CapCity(KnownCities[i]) else fallbackCity
  }

  /**
   * The city found is the capitalised first known city the normalised
   * transcript mentions, and the fallback unchanged when it mentions none.
   */
  lemma CityOfSpec(transcript: string, fallbackCity: string)
    ensures var t := Norm(transcript);
      (forall k :: 0 <= k < |KnownCities| ==> !Contains(t, KnownCities[k])) ==> CityOf(transcript, fallbackCity) == fallbackCity
    ensures var t := Norm(transcript);
      (exists k :: 0 <= k < |KnownCities| && Contains(t, KnownCities[k])) ==>
        (exists k :: 0 <= k < |KnownCities| && Contains(t, KnownCities[k]) &&
           CityOf(transcript, fallbackCity) == CapCity(KnownCities[k]) &&
           (forall j :: 0 <= j < k ==> !Contains(t, KnownCities[j])))
  {
    FirstCitySpec(Norm(transcript), KnownCities);
  }

  /** A found city is never empty, so the result is empty only for an empty fallback. */
  lemma CityOfEmpty(transcript: string, fallbackCity: string)
    ensures CityOf(transcript, fallbackCity) == "" ==> fallbackCity == ""
  {
    var i := FirstCity(Norm(transcript), KnownCities);
    if i < |KnownCities| {
      assert KnownCities[i] != "";
      CapCitySpec(KnownCities[i]);
    }
  }

  /**
   * `extractCity(transcript, fallbackCity)`: the loop over the known cities
   * with its early return. `"u " + c` and `"in " + c` contain `c`, so
   * mentioning `c` is what counts.
   */
  method ExtractCity(transcript: string, fallbackCity: string) returns (city: string)
    ensures city == CityOf(transcript, fallbackCity)
  {
    var t := Norm(transcript);
    FirstCitySpec(t, KnownCities);
    var i := 0;
    while i < |KnownCities|
      invariant 0 <= i <= |KnownCities|
      invariant forall j :: 0 <= j < i ==> !Contains(t, KnownCities[j])
    {
      var c := KnownCities[i];
      if Contains(t, "u " + c) || Contains(t, "in " + c) || Contains(t, c) {
        if Contains(t, "u " + c) {
          ContainsSuffixOfNeedle(t, "u ", c);
        } else if Contains(t, "in " + c) {
          ContainsSuffixOfNeedle(t, "in ", c);
        }
        assert FirstCity(t, KnownCities) == i;
        return CapCity(c);
      }
      i := i + 1;
    }
    return fallbackCity;
  }

  // ---------------------------------------------------------------- suggestions

  /** The sixteen curated picks of the demo data, each with its `title` and `why` texts. */
  datatype Pick =
    | FamilyHotel
    | QuietStay
    | NightlifeStay
    | FamilyRestaurant
    | TouristHotspot
    | EveningEvent
    | ClubZone
    | OldTownWalk
    | NightViewpoint
    | StandardTaxi
    | FamilyRental
    | NextFerry
    | DirectTrain
    | DaytimeBus
    | BikeRoute
    | AirportTransfer
  {
    function Title(): string {
      match this
      case FamilyHotel => "Family-friendly hotel (24h reception, parking)"
      case QuietStay => "Quiet boutique stay (low-noise, central, well-lit)"
      case NightlifeStay => "Cheapest option near nightlife"
      case FamilyRestaurant => "Calm family restaurant (early seating)"
      case TouristHotspot => "Popular tourist hotspot"
      case EveningEvent => "Early evening local event"
      case ClubZone => "Late-night club zone"
      case OldTownWalk => "Old town walk (daylight)"
      case NightViewpoint => "Viewpoint near steep edges at night"
      case StandardTaxi => "Standard taxi/transfer"
      case FamilyRental => "Automatic + full insurance (family)"
      case NextFerry => "Next available ferry (weather check)"
      case DirectTrain => "Direct train (fewer transfers)"
      case DaytimeBus => "Daytime bus (safe arrival)"
      case BikeRoute => "Bike route on dedicated paths"
      case AirportTransfer => "Airport transfer + flight monitoring"
    }

    function Why(): string {
      match this
      case FamilyHotel => "Late arrivals + family safety, predictable service."
      case QuietStay => "Less stress after long drive; easy walkable center."
      case NightlifeStay => "Noise + late-night crowds not ideal for families."
      case FamilyRestaurant => "Fast service, safe area, easy parking."
      case TouristHotspot => "Long queues; overpriced; stressful with kids."
      case EveningEvent => "Low crowd density, safe return."
      case ClubZone => "High incident probability weekends; not recommended."
      case OldTownWalk => "Best atmosphere + safer visibility."
      case NightViewpoint => "Risky in dark/wind; skip tonight."
      case StandardTaxi => "Fast pickup near your location."
      case FamilyRental => "Lowest stress; safer in winter conditions."
      case NextFerry => "TBW will warn if wind becomes unsafe."
      case DirectTrain => "Less risk of missed connections."
      case DaytimeBus => "Better lighting + easier last-mile taxi."
      case BikeRoute => "Avoids main traffic; safer ride."
      case AirportTransfer => "TBW syncs delays with hotel/transfer."
    }
  }

  /** One item `{ title, why, avoid }`: the pick its texts come from and its `avoid` flag. */
  datatype Suggestion = Suggestion(pick: Pick, avoid: bool)

  datatype Transport = Transport(
    taxi: seq<Suggestion>, rent: seq<Suggestion>, ferry: seq<Suggestion>, train: seq<Suggestion>,
    bus: seq<Suggestion>, bike: seq<Suggestion>, flight: seq<Suggestion>)

  datatype CityData = CityData(
    hotels: seq<Suggestion>, food: seq<Suggestion>, events: seq<Suggestion>, sights: seq<Suggestion>,
    transport: Transport)

  /** The cities `DEMO` has data for: only Split. */
  const DemoCities: set<string> := {"Split"}

  /** `DEMO.Split`. */
  const SplitData: CityData :=
    CityData(
      [Suggestion(FamilyHotel, false), Suggestion(QuietStay, false), Suggestion(NightlifeStay, true)],
      [Suggestion(FamilyRestaurant, false), Suggestion(TouristHotspot, true)],
      [Suggestion(EveningEvent, false), Suggestion(ClubZone, true)],
      [Suggestion(OldTownWalk, false), Suggestion(NightViewpoint, true)],
      Transport(
        [Suggestion(StandardTaxi, false)], [Suggestion(FamilyRental, false)], [Suggestion(NextFerry, false)],
        [Suggestion(DirectTrain, false)], [Suggestion(DaytimeBus, false)], [Suggestion(BikeRoute, false)],
        [Suggestion(AirportTransfer, false)]))

  /** `DEMO[city]`: the curated picks of a city that has data. */
  function DemoData(city: string): CityData
    requires city in DemoCities
  {
    SplitData
  }

  /** `pickDemoCity(city)`: the city when it has data, otherwise "Split". */
  function PickDemoCity(city: string): (r: string)
    ensures r in DemoCities
    ensures city in DemoCities ==> r == city
  {
    if city in DemoCities then city else "Split"
  }

  /** Only Split has data, so every city is served from Split's. */
  lemma AlwaysSplit(city: string)
    ensures PickDemoCity(city) == "Split"
  {
  }

  /** The list `conciergeSuggest` picks out of one city's data. */
  function SuggestionsFor(data: CityData, intent: string): seq<Suggestion> {
    if intent == "hotel" then data.hotels
    else if intent == "food" then data.food
    else if intent == "events" then data.events
    else if intent == "sights" then data.sights
    else if intent == "taxi" then data.transport.taxi
    else if intent == "rent" then data.transport.rent
    else if intent == "ferry" then data.transport.ferry
    else if intent == "train" then data.transport.train
    else if intent == "bus" then data.transport.bus
    else if intent == "bike" then data.transport.bike
    else if intent == "flight" then data.transport.flight
    else []
  }

  /** `conciergeSuggest({ city, intent })`; a missing city is "" and means Split. */
  function ConciergeSuggest(city: string, intent: string): seq<Suggestion> {
    SuggestionsFor(DemoData(PickDemoCity(if city == "" then "Split" else city)), intent)
  }

  /**
   * Every city gets Split's suggestions, and there are suggestions exactly
   * for the eleven intent categories.
   */
  lemma SuggestionsSpec(city: string, intent: string)
    ensures ConciergeSuggest(city, intent) == SuggestionsFor(DemoData("Split"), intent)
    ensures ConciergeSuggest(city, intent) != [] <==> intent in IntentNames
  {
  }

  // ---------------------------------------------------------------- actions

  /** What an action's `run` would open. */
  datatype Target = BookingSearch(city: string, q: string) | MapsSearch(query: string)

  datatype Action = Action(caption: string, target: Target)

  const PlanBCaption: string := "Show Plan B (safe alternatives)"

  /** The one action offered for a recognised intent before Plan B. */
  function PrimaryAction(intent: string, safeCity: string): (r: Option<Action>)
    ensures r.Some? <==> intent in IntentNames
  {
    if intent == "hotel" then Some(Action("Open booking search", BookingSearch(safeCity, "hotel apartment family parking")))
    else if intent == "food" then Some(Action("Open restaurants map", MapsSearch("family restaurant " + safeCity)))
    else if intent == "events" then Some(Action("Open events nearby", MapsSearch("events " + safeCity)))
    else if intent == "sights" then Some(Action("Open sights map", MapsSearch("top sights " + safeCity)))
    else if intent in TransportQuery then Some(Action("Open transport map", MapsSearch(TransportQuery[intent] + " " + safeCity)))
    else None
  }

  const TransportQuery: map<string, string> := map[
    "taxi" := "taxi transfer", "rent" := "rent a car", "flight" := "airport", "ferry" := "ferry terminal",
    "train" := "train station", "bus" := "bus station", "bike" := "bike rental"]

  /**
   * `conciergeActions({ city, intent })`: the intent's action, if any, then
   * Plan B, which is always last; a missing city is "" and becomes "Split".
   */
  method ConciergeActions(city: string, intent: string) returns (actions: seq<Action>)
    ensures var safeCity := if city == "" then "Split" else city;
      && |actions| == (if intent in IntentNames then 2 else 1)
      && actions[|actions| - 1] == Action(PlanBCaption, BookingSearch(safeCity, "24h reception safe family"))
      && (intent in IntentNames ==> Some(actions[0]) == PrimaryAction(intent, safeCity))
  {
    var safeCity := if city == "" then "Split" else city;
    actions := [];
    if intent == "hotel" {
      actions := actions + [Action("Open booking search", BookingSearch(safeCity, "hotel apartment family parking"))];
    }
    if intent == "food" {
      actions := actions + [Action("Open restaurants map", MapsSearch("family restaurant " + safeCity))];
    }
    if intent == "events" {
      actions := actions + [Action("Open events nearby", MapsSearch("events " + safeCity))];
    }
    if intent == "sights" {
      actions := actions + [Action("Open sights map", MapsSearch("top sights " + safeCity))];
    }
    if intent in ["taxi", "rent", "flight", "ferry", "train", "bus", "bike"] {
      actions := actions + [Action("Open transport map", MapsSearch(TransportQuery[intent] + " " + safeCity))];
    }
    actions := actions + [Action(PlanBCaption, BookingSearch(safeCity, "24h reception safe family"))];
  }

  // ---------------------------------------------------------------- urls

  /**
   * `bookingSearchUrl({ city, q })`: `ss` is `q + " " + city` trimmed and
   * `lang` the current language; `q` defaults to "accommodation".
   */
  function BookingSearchUrl(items: map<string, Raw>, navLanguage: string, city: string, q: Option<string>): (u: Url)
    ensures u.base == "https://www.booking.com/searchresults.html"
    ensures Param(u.params, "ss") == Some(Trim(q.GetOr("accommodation") + " " + city))
    ensures Param(u.params, "lang") == Some(I18n.GetLang(items, navLanguage))
    ensures I18n.GetLang(items, navLanguage) in I18n.Langs
  {
    Url("https://www.booking.com/searchresults.html",
        [("ss", Trim(q.GetOr("accommodation") + " " + city)), ("lang", I18n.GetLang(items, navLanguage))])
  }

  /** `googleMapsSearchUrl(q)`. */
  function GoogleMapsSearchUrl(q: string): (u: Url)
    ensures Param(u.params, "api") == Some("1") && Param(u.params, "query") == Some(q)
  {
    Url("https://www.google.com/maps/search/", [("api", "1"), ("query", q)])
  }

  /** The address the action's `run` opens. */
  function TargetUrl(items: map<string, Raw>, navLanguage: string, t: Target): Url {
    match t
    case BookingSearch(city, q) => BookingSearchUrl(items, navLanguage, city, Some(q))
    case MapsSearch(query) => GoogleMapsSearchUrl(query)
  }
}
