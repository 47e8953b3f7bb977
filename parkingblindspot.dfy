/** The three driving-assist checks of src/tbw/assist/ParkingBlindSpot.js. */
module ParkingBlindSpot {
  import opened Wrappers

  /** `{ warn, message }`; a result without a warning has no message field (`None`). */
  datatype Advice = Advice(warn: bool, message: Option<string>)

  const NoWarning: Advice := Advice(false, None)

  const ParkingMessage: string := "Polako. Objekt je vrlo blizu. Provjerite mrtvi kut."
  const BlindSpotMessage: string := "Vozilo u mrtvom kutu. Pričekajte."
  const RoundaboutMessage: string := "Usporite prije ulaska u kružni tok."

  /** A warning, or exactly `{ warn: false }`. */
  function Warning(cond: bool, message: string): (a: Advice)
    ensures a.warn == cond
    ensures cond ==> a.message == Some(message)
    ensures !cond ==> a == NoWarning
  {
    if cond then Advice(true, Some(message)) else NoWarning
  }

  /** `parkingAssist({ speedKmh, proximity })`. */
  function ParkingAssist(speedKmh: real, proximity: real): Advice {
    Warning(speedKmh <= 10.0 && proximity < 0.5, ParkingMessage)
  }

  /** `blindSpotAssist({ turnSignal, proximitySide })`; the signal is taken by truthiness. */
  function BlindSpotAssist(turnSignal: bool, proximitySide: real): Advice {
    Warning(turnSignal && proximitySide < 0.7, BlindSpotMessage)
  }

  /** `roundaboutAssist({ entrySpeed })`. */
  function RoundaboutAssist(entrySpeed: real): Advice {
    Warning(entrySpeed > 30.0, RoundaboutMessage)
  }

  /**
   * Parking warns only at walking speed (at most 10 km/h) with an object
   * closer than 0.5; a blind-spot warning needs the turn signal and a side
   * proximity below 0.7; a roundabout warns above 30 km/h.
   */
  lemma AssistThresholds(speedKmh: real, proximity: real, turnSignal: bool, proximitySide: real, entrySpeed: real)
    ensures ParkingAssist(speedKmh, proximity).warn <==> speedKmh <= 10.0 && proximity < 0.5
    ensures BlindSpotAssist(turnSignal, proximitySide).warn <==> turnSignal && proximitySide < 0.7
    ensures RoundaboutAssist(entrySpeed).warn <==> entrySpeed > 30.0
  {
  }

  /** Exactly 30 km/h at the roundabout entry gives no warning; 10 km/h near an object does. */
  lemma AssistBoundaries()
    ensures RoundaboutAssist(30.0) == NoWarning
    ensures ParkingAssist(10.0, 0.4) == Advice(true, Some(ParkingMessage))
    ensures BlindSpotAssist(false, 0.0) == NoWarning
  {
  }

  /** Every result without a warning is exactly `{ warn: false }`, and every warning carries its message. */
  lemma AdviceShape(speedKmh: real, proximity: real, turnSignal: bool, proximitySide: real, entrySpeed: real)
    ensures var a := ParkingAssist(speedKmh, proximity); a.warn <==> a.message.Some?
    ensures var a := BlindSpotAssist(turnSignal, proximitySide); a.warn <==> a.message.Some?
    ensures var a := RoundaboutAssist(entrySpeed); a.warn <==> a.message.Some?
  {
  }
}
