/**
 * The context trigger of src/tbw/core/contextBridge.js: a spoken worry
 * ("we will not make it", "snow", "road closed", ...) that, together with
 * a navigation risk, suggests a booking.
 */
module ContextBridge {
  import opened Text
  import opened Json

  /** The eleven trigger phrases, all already in lower case. */
  const ContextPhrases: seq<string> := [
    "ne stignemo", "nećemo stići", "kasnimo", "snijeg", "oluja",
    "zatvorena cesta", "kolona", "što ako", "kako ćemo", "ne znam", "problem"
  ]

  /**
   * `detectContextTrigger(transcript)`: the lowercased transcript contains
   * one of the phrases. A missing transcript is `""`.
   */
  function DetectContextTrigger(transcript: string): bool {
    AnyContains(Lower(transcript), ContextPhrases)
  }

  /** The trigger fires exactly when one of the phrases occurs in the lowercased transcript. */
  lemma DetectContextTriggerSpec(transcript: string)
    ensures DetectContextTrigger(transcript) <==>
      exists k :: 0 <= k < |ContextPhrases| && Contains(Lower(transcript), ContextPhrases[k])
  {
    AnyContainsSpec(Lower(transcript), ContextPhrases);
  }

  /** An empty (or missing) transcript never triggers. */
  lemma EmptyNeverTriggers()
    ensures !DetectContextTrigger("")
  {
    DetectContextTriggerSpec("");
    forall k | 0 <= k < |ContextPhrases| ensures !Contains(Lower(""), ContextPhrases[k]) {
      EmptyContainsNothing(ContextPhrases[k]);
    }
  }

  /** Whatever is said before or after a triggering transcript, it still triggers. */
  lemma TriggerExtends(a: string, t: string, b: string)
    requires DetectContextTrigger(t)
    ensures DetectContextTrigger(a + t + b)
  {
    DetectContextTriggerSpec(t);
    DetectContextTriggerSpec(a + t + b);
    var k :| 0 <= k < |ContextPhrases| && Contains(Lower(t), ContextPhrases[k]);
    LowerConcat(a + t, b);
    LowerConcat(a, t);
    ContainsInContext(Lower(a), Lower(t), Lower(b), ContextPhrases[k]);
  }

  /**
   * Matching ignores case: the lower-cased transcript triggers alike, and so
   * does the upper-cased one when it has none of the letters ı, ſ, µ, ß, ŉ.
   */
  lemma TriggerIgnoresCase(t: string)
    ensures NoCaseBreaker(t) ==> DetectContextTrigger(Upper(t)) == DetectContextTrigger(t)
    ensures DetectContextTrigger(Lower(t)) == DetectContextTrigger(t)
  {
    LowerOfUpper(t);
    LowerIdempotent(t);
  }

  /** "Kasnimo!" triggers. */
  lemma LateTriggers()
    ensures DetectContextTrigger("Kasnimo!")
  {
    assert Lower("Kasnimo!")[0..7] == "kasnimo";
    assert OccursAt(Lower("Kasnimo!"), ContextPhrases[2], 0);
    DetectContextTriggerSpec("Kasnimo!");
  }

  /** `shouldBridgeToBooking({ contextHit, navRisk })`: both signals are truthy. */
  function ShouldBridgeToBooking(contextHit: Value, navRisk: Value): (r: bool)
    ensures r ==> Truthy(contextHit) && Truthy(navRisk)
    ensures !Truthy(contextHit) || !Truthy(navRisk) ==> !r
  {
    Truthy(contextHit) && Truthy(navRisk)
  }

  /** Speech alone, or a navigation risk alone, never bridges. */
  lemma BridgeNeedsBoth(speech: bool, risk: Value)
    ensures !ShouldBridgeToBooking(Bool(speech), Null)
    ensures !ShouldBridgeToBooking(Bool(false), risk)
    ensures ShouldBridgeToBooking(Bool(true), risk) == Truthy(risk)
  {
  }
}
