/**
 * The "go on anyway" command of src/tbw/safety/OverrideEngine.js and its
 * silent safety boost.
 */
module Override {
  import opened Text

  /** The four override phrases, all already in lower case. */
  const OverridePhrases: seq<string> := ["idemo dalje", "nastavi", "svejedno", "bez obzira"]

  /** `isOverrideCommand(text = "")`: the lowercased text contains one of the phrases. */
  function IsOverrideCommand(text: string): bool {
    AnyContains(Lower(text), OverridePhrases)
  }

  /** The command is recognised exactly when one of the phrases occurs in the lowercased text. */
  lemma IsOverrideCommandSpec(text: string)
    ensures IsOverrideCommand(text) <==>
      exists k :: 0 <= k < |OverridePhrases| && Contains(Lower(text), OverridePhrases[k])
  {
    AnyContainsSpec(Lower(text), OverridePhrases);
  }

  /** An omitted or empty text is no command. */
  lemma EmptyIsNoOverride()
    ensures !IsOverrideCommand("")
  {
    IsOverrideCommandSpec("");
    forall k | 0 <= k < |OverridePhrases| ensures !Contains(Lower(""), OverridePhrases[k]) {
      EmptyContainsNothing(OverridePhrases[k]);
    }
  }

  /**
   * Recognition ignores case: a text and its lower-cased form agree, and so
   * does its upper-cased form when it has none of the letters ı, ſ, µ, ß, ŉ.
   */
  lemma OverrideIgnoresCase(text: string)
    ensures IsOverrideCommand(Lower(text)) == IsOverrideCommand(text)
    ensures NoCaseBreaker(text) ==> IsOverrideCommand(Upper(text)) == IsOverrideCommand(text)
  {
    LowerIdempotent(text);
    LowerOfUpper(text);
  }

  /**
   * Why the upper-case half needs its condition: "nastavı" (dotless ı) is no
   * override, but its upper-case form "NASTAVI" lowers to "nastavi", which is.
   */
  lemma DotlessIBreaksUpperCase()
    ensures !IsOverrideCommand("nastav\U{0131}")
    ensures IsOverrideCommand(Upper("nastav\U{0131}"))
  {
    var t := "nastav\U{0131}";
    assert Lower(t) == t;
    IsOverrideCommandSpec(t);
    assert Lower(t)[6] != OverridePhrases[1][6];
    assert Lower(Upper(t)) == "nastavi";
    assert OccursAt(Lower(Upper(t)), OverridePhrases[1], 0);
    IsOverrideCommandSpec(Upper(t));
  }

  /** "Idemo dalje!" is an override. */
  lemma GoOnIsOverride()
    ensures IsOverrideCommand("Idemo dalje!")
  {
    assert Lower("Idemo dalje!")[0..11] == "idemo dalje";
    assert OccursAt(Lower("Idemo dalje!"), OverridePhrases[0], 0);
    IsOverrideCommandSpec("Idemo dalje!");
  }

  /** `applySilentSafetyBoost()`: a placeholder that changes nothing and reports success. */
  function ApplySilentSafetyBoost(): (r: bool)
    ensures r
  {
    true
  }
}
