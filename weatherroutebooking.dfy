/** The auto-resolve rule of src/tbw/auto/WeatherRouteBooking.js. */
module WeatherRouteBooking {
  import opened Json

  /** `shouldAutoResolve({ weatherRisk, etaDriftMin })`: a weather risk of exactly `true`, or a drift of 20 minutes or more. */
  predicate ShouldAutoResolve(weatherRisk: Value, etaDriftMin: real) {
    weatherRisk == Bool(true) || etaDriftMin >= 20.0
  }

  /** A drift of 20 minutes triggers and 19 does not; a merely truthy risk does not count. */
  lemma AutoResolveBoundaries()
    ensures ShouldAutoResolve(Null, 20.0)
    ensures !ShouldAutoResolve(Null, 19.0)
    ensures !ShouldAutoResolve(Num(1.0), 0.0) && !ShouldAutoResolve(Str("true"), 0.0)
    ensures ShouldAutoResolve(Bool(true), 0.0)
  {
  }

  /**
   * A larger drift never withdraws an auto-resolve, and a risk of exactly
   * `true` resolves whatever the drift.
   */
  lemma AutoResolveMonotone(weatherRisk: Value, d: real, d2: real)
    ensures d <= d2 && ShouldAutoResolve(weatherRisk, d) ==> ShouldAutoResolve(weatherRisk, d2)
    ensures weatherRisk == Bool(true) ==> ShouldAutoResolve(weatherRisk, d) && ShouldAutoResolve(weatherRisk, d2)
    ensures weatherRisk != Bool(true) ==> (ShouldAutoResolve(weatherRisk, d) <==> d >= 20.0)
  {
  }

  datatype Proposal = Proposal(action: string, message: string)

  const ContinueProposal: Proposal :=
    Proposal("CONTINUE", "Nastavljamo prema originalnoj destinaciji uz pojačan safety nadzor.")
  const AdjustProposal: Proposal :=
    Proposal("ADJUST", "Predlažem sigurnu alternativu ili privremeni smještaj u blizini.")

  /** `proposeSolution({ destination, preference })`. */
  function ProposeSolution(destination: Value, preference: Value): Proposal {
    if preference == Str("STAY_ON_PLAN") then ContinueProposal else AdjustProposal
  }

  /**
   * The proposal is to continue exactly for the preference "STAY_ON_PLAN",
   * each outcome with its fixed message, and the destination plays no part.
   */
  lemma {:induction false} ProposalCases(destination: Value, other: Value, preference: Value)
    ensures ProposeSolution(destination, preference).action == "CONTINUE" <==> preference == Str("STAY_ON_PLAN")
    ensures ProposeSolution(destination, preference) in {ContinueProposal, AdjustProposal}
    ensures ProposeSolution(destination, preference) == ProposeSolution(other, preference)
  {
  }
}
