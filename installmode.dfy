/**
 * Device classification of src/tbw/system/InstallMode.js. The browser's
 * `navigator.userAgent` is the parameter `userAgent`.
 */
module InstallMode {
  import opened Text

  datatype Mode = CarPanel | Tablet | Mobile | Desktop {
    /** The string `detectInstallMode` returns. */
    function Name(): string {
      match this
      case CarPanel => "CAR_PANEL"
      case Tablet => "TABLET"
      case Mobile => "MOBILE"
      case Desktop => "DESKTOP"
    }
  }

  /** `detectInstallMode()`: the first of car, tablet and mobile the lowercased agent mentions. */
  function DetectInstallMode(userAgent: string): Mode {
    var ua := Lower(userAgent);
    if Contains(ua, "android auto") || Contains(ua, "car") then CarPanel
    else if Contains(ua, "tablet") then Tablet
    else if Contains(ua, "mobile") then Mobile
    else Desktop
  }

  /**
   * A car agent is a car panel even if it also says tablet or mobile;
   * tablet is tested before mobile, and desktop is the fallback.
   */
  lemma {:induction false} InstallModeOrder(userAgent: string)
    ensures var ua := Lower(userAgent);
      DetectInstallMode(userAgent) == CarPanel <==> Contains(ua, "android auto") || Contains(ua, "car")
    ensures var ua := Lower(userAgent);
      DetectInstallMode(userAgent) == Tablet <==> !Contains(ua, "car") && !Contains(ua, "android auto") && Contains(ua, "tablet")
    ensures var ua := Lower(userAgent);
      DetectInstallMode(userAgent) == Desktop <==>
        !Contains(ua, "car") && !Contains(ua, "android auto") && !Contains(ua, "tablet") && !Contains(ua, "mobile")
  {
  }

  /**
   * Matching ignores case: the lower-cased user agent gives the same mode, and
   * so does the upper-cased one when it has none of the letters ı, ſ, µ, ß, ŉ.
   */
  lemma InstallModeIgnoresCase(userAgent: string)
    ensures NoCaseBreaker(userAgent) ==> DetectInstallMode(Upper(userAgent)) == DetectInstallMode(userAgent)
    ensures DetectInstallMode(Lower(userAgent)) == DetectInstallMode(userAgent)
  {
    LowerOfUpper(userAgent);
    LowerIdempotent(userAgent);
  }

  /** `capabilities(mode)`: the `true` flags of the mode's record. */
  function Capabilities(mode: string): (caps: set<string>)
    ensures mode == "CAR_PANEL" ==> caps == {"backgroundAudio", "bigUI"}
    ensures mode == "TABLET" ==> caps == {"backgroundAudio", "splitView"}
    ensures mode == "DESKTOP" ==> caps == {"routePreview", "analysis"}
    ensures mode !in {"CAR_PANEL", "TABLET", "DESKTOP"} ==> caps == {"basic"}
  {
    if mode == "CAR_PANEL" then {"backgroundAudio", "bigUI"}
    else if mode == "TABLET" then {"backgroundAudio", "splitView"}
    else if mode == "DESKTOP" then {"routePreview", "analysis"}
    else {"basic"}
  }

  /** Background audio is available on car panels and tablets only; a phone gets the basic default. */
  lemma BackgroundAudioModes(mode: Mode)
    ensures "backgroundAudio" in Capabilities(mode.Name()) <==> mode == CarPanel || mode == Tablet
    ensures Capabilities(Mobile.Name()) == {"basic"}
  {
  }
}
