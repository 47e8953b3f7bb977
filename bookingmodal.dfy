/**
 * The dialogue state of src/tbw/booking/BookingModal.jsx: the speech
 * transcript buffer, and what stopping the microphone selects and says.
 * React state and refs are the fields of one `Modal` object; the
 * recognizer is whether one exists and whether its `start` throws.
 */
module BookingModal {
  import opened Wrappers
  import opened Text
  import opened BookingEngine

  /** One entry of `e.results`: finality and the first alternative's transcript ("" when absent). */
  datatype SpeechResult = SpeechResult(isFinal: bool, transcript: string)

  /** The text the final results add to the buffer: each transcript followed by one space. */
  function FinalsText(rs: seq<SpeechResult>): string {
    if rs == [] then ""
    else FinalsText(rs[..|rs| - 1]) + (if rs[|rs| - 1].isFinal then rs[|rs| - 1].transcript + " " else "")
  }

  /** The interim results' transcripts, concatenated. */
  function InterimsText(rs: seq<SpeechResult>): string {
    if rs == [] then ""
    else InterimsText(rs[..|rs| - 1]) + (if rs[|rs| - 1].isFinal then "" else rs[|rs| - 1].transcript)
  }

  /** Results handled in two batches add up to the results handled in one. */
  lemma {:induction false} FinalsTextConcat(a: seq<SpeechResult>, b: seq<SpeechResult>)
    ensures FinalsText(a + b) == FinalsText(a) + FinalsText(b)
  {
    if b == [] {
      assert a + b == a;
    } else {
      assert (a + b)[..|a + b| - 1] == a + b[..|b| - 1];
      FinalsTextConcat(a, b[..|b| - 1]);
    }
  }

  /** Interim results contribute nothing to the buffer, and a final one exactly its text and a space. */
  lemma FinalsOfOne(r: SpeechResult)
    ensures FinalsText([r]) == if r.isFinal then r.transcript + " " else ""
    ensures InterimsText([r]) == if r.isFinal then "" else r.transcript
  {
    assert [r][..0] == [];
  }

  /** The items shown as recommendations: the first three not to avoid. */
  function Good(items: seq<Suggestion>): (r: seq<Suggestion>)
    ensures |r| <= 3
  {
    Take(Recommended(items), 3)
  }

  /** The items shown as "why not": the first two to avoid. */
  function Bad(items: seq<Suggestion>): (r: seq<Suggestion>)
    ensures |r| <= 2
  {
    Take(Avoided(items), 2)
  }

  function Take<T>(s: seq<T>, n: nat): (r: seq<T>)
    ensures |r| == if |s| < n then |s| else n
    ensures r == s[..|r|]
  {
    if |s| < n then s else s[..n]
  }

  /** `items.filter((x) => !x.avoid)`. */
  function Recommended(items: seq<Suggestion>): seq<Suggestion> {
    if items == [] then []
    else (if items[0].avoid then [] else [items[0]]) + Recommended(items[1..])
  }

  /** `items.filter((x) => x.avoid)`. */
  function Avoided(items: seq<Suggestion>): seq<Suggestion> {
    if items == [] then []
    else (if items[0].avoid then [items[0]] else []) + Avoided(items[1..])
  }

  /** The filters keep source order: filtering a concatenation concatenates the filtered parts. */
  lemma {:induction false} FiltersConcat(a: seq<Suggestion>, b: seq<Suggestion>)
    ensures Recommended(a + b) == Recommended(a) + Recommended(b)
    ensures Avoided(a + b) == Avoided(a) + Avoided(b)
  {
    if a == [] {
      assert a + b == b;
    } else {
      assert (a + b)[0] == a[0];
      assert (a + b)[1..] == a[1..] + b;
      FiltersConcat(a[1..], b);
    }
  }

  /** The filters split the items: each item lands in exactly one of them, by its flag. */
  lemma {:induction false} FiltersPartition(items: seq<Suggestion>)
    ensures forall x :: x in Recommended(items) <==> x in items && !x.avoid
    ensures forall x :: x in Avoided(items) <==> x in items && x.avoid
    ensures |Recommended(items)| + |Avoided(items)| == |items|
  {
    if items != [] {
      FiltersPartition(items[1..]);
      assert items == [items[0]] + items[1..];
    }
  }

  /**
   * Recommendations are the leading non-avoid items and "why not" the
   * leading avoid items; no item is in both.
   */
  lemma SelectionSpec(items: seq<Suggestion>)
    ensures Good(items) == Recommended(items)[..|Good(items)|]
    ensures Bad(items) == Avoided(items)[..|Bad(items)|]
    ensures |Good(items)| == if |Recommended(items)| < 3 then |Recommended(items)| else 3
    ensures |Bad(items)| == if |Avoided(items)| < 2 then |Avoided(items)| else 2
    ensures forall x :: x in Good(items) ==> x in items && !x.avoid
    ensures forall x :: x in Bad(items) ==> x in items && x.avoid
    ensures forall x :: !(x in Good(items) && x in Bad(items))
  {
    FiltersPartition(items);
    forall x | x in Good(items) ensures x in Recommended(items) {
      var i :| 0 <= i < |Good(items)| && Good(items)[i] == x;
      assert Recommended(items)[i] == x;
    }
    forall x | x in Bad(items) ensures x in Avoided(items) {
      var i :| 0 <= i < |Bad(items)| && Bad(items)[i] == x;
      assert Avoided(items)[i] == x;
    }
  }

  const ReplyStart: string := "U redu. "
  const ReplyEnd: string := " Želite li da otvorim rezultate ili da predložim plan B?"
  const GenericTop: string := "Imam preporuke."

  /** The reply spoken after a selection: it names the top recommendation when it has a title. */
  function Reply(good: seq<Suggestion>): (r: string)
    ensures good != [] && good[0].pick.Title() != "" ==> r == ReplyStart + "Preporuka: " + good[0].pick.Title() + "." + ReplyEnd
    ensures !(good != [] && good[0].pick.Title() != "") ==> r == ReplyStart + GenericTop + ReplyEnd
  {
    var top := if good != [] && good[0].pick.Title() != "" then "Preporuka: " + good[0].pick.Title() + "." else GenericTop;
    ReplyStart + top + ReplyEnd
  }

  /** The picks that head Split's accommodation, food, events and sights lists have titles. */
  lemma LeisureTopTitles()
    ensures FamilyHotel.Title() != "" && FamilyRestaurant.Title() != "" && EveningEvent.Title() != ""
    ensures OldTownWalk.Title() != ""
  {
  }

  /** The picks that head Split's transport lists have titles. */
  lemma TransportTopTitles()
    ensures StandardTaxi.Title() != "" && FamilyRental.Title() != "" && NextFerry.Title() != ""
    ensures DirectTrain.Title() != "" && DaytimeBus.Title() != "" && BikeRoute.Title() != ""
    ensures AirportTransfer.Title() != ""
  {
  }

  /** For every category Split's list starts with a titled item to recommend, which heads the recommendations. */
  lemma FirstIsRecommended(city: string, intent: string)
    requires intent in IntentNames
    ensures var items := ConciergeSuggest(city, intent);
      items != [] && !items[0].avoid && items[0].pick.Title() != "" && Good(items) != [] && Good(items)[0] == items[0]
  {
    var items := ConciergeSuggest(city, intent);
    SuggestionsSpec(city, intent);
    LeisureTopTitles();
    TransportTopTitles();
    assert !items[0].avoid;
    assert Recommended(items) == [items[0]] + Recommended(items[1..]);
  }

  /** Split's data gives every intent a recommendation, so the reply names it. */
  lemma ReplyNamesFirstRecommendation(city: string, intent: string)
    requires intent in IntentNames
    ensures var good := Good(ConciergeSuggest(city, intent));
      good != [] && Reply(good) == ReplyStart + "Preporuka: " + good[0].pick.Title() + "." + ReplyEnd
  {
    FirstIsRecommended(city, intent);
  }

  /** What a transcript selects: the intent, the city and the two lists shown. */
  datatype Choice = Choice(intent: string, city: string, good: seq<Suggestion>, bad: seq<Suggestion>)

  /**
   * The selection for `text`: the detected intent or "hotel", the found
   * city or the fallback, and the leading recommendations and warnings of
   * that city's suggestions.
   */
  function Choose(text: string, cityFallback: string): Choice {
    var i := DetectBookingIntent(text).GetOr("hotel");
    var c := if CityOf(text, cityFallback) == "" then cityFallback else CityOf(text, cityFallback);
    Choice(i, c, Good(ConciergeSuggest(c, i)), Bad(ConciergeSuggest(c, i)))
  }

  /** The steps both the seed effect and `stopListening` take to select for `text`. */
  method Select(text: string, cityFallback: string) returns (ch: Choice)
    ensures ch == Choose(text, cityFallback)
  {
    var i := DetectBookingIntent(text).GetOr("hotel");
    var c := ExtractCity(text, cityFallback);
    if c == "" {
      c := cityFallback;
    }
    var items := ConciergeSuggest(c, i);
    ch := Choice(i, c, Good(items), Bad(items));
  }

  /**
   * A selection always has one of the eleven intents and at least one
   * recommendation; its city is empty only when the fallback is; what it
   * recommends is never to avoid and what it warns about always is.
   */
  lemma ChooseSpec(text: string, cityFallback: string)
    ensures var ch := Choose(text, cityFallback);
      && ch.intent in IntentNames && ch.good != [] && (ch.city == "" ==> cityFallback == "")
      && (forall x :: x in ch.good ==> !x.avoid) && (forall x :: x in ch.bad ==> x.avoid)
  {
    var ch := Choose(text, cityFallback);
    DetectedIntentIsKnown(text);
    CityOfEmpty(text, cityFallback);
    FirstIsRecommended(ch.city, ch.intent);
    SelectionSpec(ConciergeSuggest(ch.city, ch.intent));
  }

  /** What opening with a seed prompt says. */
  function SeedGreeting(ch: Choice): string {
    "Mogu pomoći. " + (if ch.intent == "hotel" then "Tražim smještaj" else "Provjeravam opcije") + " u gradu " + ch.city + "."
  }

  const NoRecognizerMessage: string := "Ovaj uređaj ne podržava prepoznavanje govora u pregledniku."
  const ReadyMessage: string := "Booking concierge je spreman. Pritisnite mikrofon i recite što trebate."

  /** The state `intent`, `city`, `suggestions` and `whyNot` on display. */
  datatype Display = Display(intent: Option<string>, city: string, suggestions: seq<Suggestion>, whyNot: seq<Suggestion>)

  /** The display before any selection, and after the selection made for a transcript. */
  function DisplayOf(selectedFrom: Option<string>, cityFallback: string): Display {
    match selectedFrom
    case None => Display(None, cityFallback, [], [])
    case Some(text) =>
      var ch := Choose(text, cityFallback);
      Display(Some(ch.intent), ch.city, ch.good, ch.bad)
  }

  /** One call of `speak`: the greeting, the apology, or what a selection made for a text says. */
  datatype Utterance = Ready | NoRecognizer | Greeting(seed: string) | ReplyTo(transcript: string)

  /** The text `speak` is given. */
  function Said(u: Utterance, cityFallback: string): string {
    match u
    case Ready => ReadyMessage
    case NoRecognizer => NoRecognizerMessage
    case Greeting(seed) => SeedGreeting(Choose(seed, cityFallback))
    case ReplyTo(text) => Reply(Choose(text, cityFallback).good)
  }

  /** The reply after a selection names the first recommendation then on display. */
  lemma ReplyNamesTopShown(text: string, cityFallback: string)
    ensures var d := DisplayOf(Some(text), cityFallback);
      d.suggestions != [] && Said(ReplyTo(text), cityFallback) == ReplyStart + "Preporuka: " + d.suggestions[0].pick.Title() + "." + ReplyEnd
  {
    var ch := Choose(text, cityFallback);
    DetectedIntentIsKnown(text);
    ReplyNamesFirstRecommendation(ch.city, ch.intent);
  }

  /** The greeting for a seed prompt says whether it looks for accommodation, and names the city on display. */
  lemma GreetingNamesShownCity(seed: string, cityFallback: string)
    ensures var d := DisplayOf(Some(seed), cityFallback);
      Said(Greeting(seed), cityFallback) ==
        "Mogu pomoći. " + (if d.intent == Some("hotel") then "Tražim smještaj" else "Provjeravam opcije") + " u gradu " + d.city + "."
  {
  }

  /**
   * The component's React state and refs. The selection on display is kept
   * as the transcript it was made for (`Shown` recomputes `intent`, `city`,
   * `suggestions` and `whyNot` from it), and `speak` is recorded as the
   * utterances spoken, oldest first (`Said` gives their text).
   */
  class Modal {
    const seedPrompt: string
    const cityFallback: string
    var listening: bool
    var lastUser: string
    /** The transcript of the selection on display; `None` before the first one. */
    var selectedFrom: Option<string>
    /** `finalTextRef.current`. */
    var finalText: string
    /** `recRef.current !== null`. */
    var hasRecognizer: bool
    var spoken: seq<Utterance>

    /** `intent`, `city`, `suggestions` and `whyNot`. */
    function Shown(): Display
      reads this
    {
      DisplayOf(selectedFrom, cityFallback)
    }

    /** The initial state; a missing seed prompt is "" and the fallback city defaults to "Split". */
    constructor (seedPrompt: string, cityFallback: Option<string>)
      ensures this.seedPrompt == seedPrompt && this.cityFallback == cityFallback.GetOr("Split")
      ensures !listening && lastUser == seedPrompt && Shown() == Display(None, this.cityFallback, [], [])
      ensures finalText == "" && !hasRecognizer && spoken == []
    {
      this.seedPrompt := seedPrompt;
      this.cityFallback := cityFallback.GetOr("Split");
      listening := false;
      lastUser := seedPrompt;
      selectedFrom := None;
      finalText := "";
      hasRecognizer := false;
      spoken := [];
    }

    /** The action list shown: `conciergeActions({ city, intent: intent || "hotel" })`. */
    method Actions() returns (a: seq<Action>)
      ensures var d := Shown();
        && |a| == (if d.intent.GetOr("hotel") in IntentNames then 2 else 1)
        && a[|a| - 1] == Action(PlanBCaption, BookingSearch(if d.city == "" then "Split" else d.city, "24h reception safe family"))
        && (d.intent.GetOr("hotel") in IntentNames ==>
              Some(a[0]) == PrimaryAction(d.intent.GetOr("hotel"), if d.city == "" then "Split" else d.city))
    {
      var d := Shown();
      a := ConciergeActions(d.city, d.intent.GetOr("hotel"));
    }

    /** The effect that runs when the modal opens: select for the seed prompt and greet, or say it is ready. */
    method OnOpen()
      modifies this`selectedFrom, this`spoken
      ensures seedPrompt != "" ==> selectedFrom == Some(seedPrompt) && spoken == old(spoken) + [Greeting(seedPrompt)]
      ensures seedPrompt == "" ==> selectedFrom == old(selectedFrom) && spoken == old(spoken) + [Ready]
    {
      if seedPrompt != "" {
        selectedFrom := Some(seedPrompt);
        spoken := spoken + [Greeting(seedPrompt)];
      } else {
        spoken := spoken + [Ready];
      }
    }

    /**
     * `startListening()`: without a recognizer it only apologises; otherwise
     * the final-text buffer is reset before any result arrives, and
     * listening is on unless `start` throws.
     */
    method StartListening(recognizerAvailable: bool, startThrows: bool)
      modifies this`spoken, this`listening, this`finalText, this`hasRecognizer
      ensures !recognizerAvailable ==>
        && spoken == old(spoken) + [NoRecognizer] && listening == old(listening)
        && finalText == old(finalText) && hasRecognizer == old(hasRecognizer)
      ensures recognizerAvailable ==>
        && finalText == "" && hasRecognizer && listening == !startThrows && spoken == old(spoken)
    {
      if !recognizerAvailable {
        spoken := spoken + [NoRecognizer];
        return;
      }
      hasRecognizer := true;
      finalText := "";
      listening := !startThrows;
    }

    /**
     * `onresult`: the results from `resultIndex` on append each final
     * transcript and a space to the buffer, which never loses text; the
     * shown text is the buffer followed by the interim transcripts, trimmed.
     */
    method OnResult(resultIndex: nat, results: seq<SpeechResult>)
      modifies this`finalText, this`lastUser
      ensures var start := if resultIndex < |results| then resultIndex else |results|;
        && finalText == old(finalText) + FinalsText(results[start..])
        && lastUser == Trim(finalText + InterimsText(results[start..]))
      ensures StartsWith(finalText, old(finalText))
    {
      var start := if resultIndex < |results| then resultIndex else |results|;
      var interim := "";
      var i := start;
      while i < |results|
        invariant start <= i <= |results|
        invariant finalText == old(finalText) + FinalsText(results[start..i])
        invariant interim == InterimsText(results[start..i])
      {
        var res := results[i];
        assert results[start..i + 1][..i - start] == results[start..i];
        if res.isFinal {
          finalText := finalText + res.transcript + " ";
        } else {
          interim := interim + res.transcript;
        }
        i := i + 1;
      }
      assert results[start..i] == results[start..];
      lastUser := Trim(finalText + interim);
    }

    /**
     * `stopListening()`: capture stops; an empty (trimmed) transcript
     * changes nothing else. Otherwise the selection is made for the trimmed
     * transcript and the reply spoken.
     */
    method StopListening()
      modifies this`listening, this`hasRecognizer, this`selectedFrom, this`spoken
      ensures !listening && !hasRecognizer
      ensures Trim(old(lastUser)) == "" ==> selectedFrom == old(selectedFrom) && spoken == old(spoken)
      ensures Trim(old(lastUser)) != "" ==>
        selectedFrom == Some(Trim(old(lastUser))) && spoken == old(spoken) + [ReplyTo(Trim(old(lastUser)))]
    {
      var text := Trim(lastUser);
      if text != "" {
        selectedFrom := Some(text);
        spoken := spoken + [ReplyTo(text)];
      }
      listening, hasRecognizer := false, false;
    }
  }
}
