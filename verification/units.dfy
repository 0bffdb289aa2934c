/** Unit conversions used by the cooling-load calculator. */
module Units {

  /** One ton of refrigeration, in watts. */
  const WattsPerTon: real := 3517.0

  /** Watts in one kilowatt: the ventilation term is computed in kW and scaled. */
  const WattsPerKilowatt: real := 1000.0

  /** Convert a load in watts to tons of refrigeration. */
  function WattsToTons(watts: real): (tons: real)
    ensures tons * WattsPerTon == watts
    ensures watts > 0.0 <==> tons > 0.0
    ensures tons < watts || watts <= 0.0
  {
    watts / WattsPerTon
  }

  /** Convert tons of refrigeration back to watts. */
  function TonsToWatts(tons: real): (watts: real)
    ensures tons > 0.0 <==> watts > 0.0
  {
    tons * WattsPerTon
  }

  /** Convert a heat rate in kilowatts to watts. */
  function KilowattsToWatts(kw: real): (watts: real)
    ensures watts / WattsPerKilowatt == kw
    ensures kw > 0.0 <==> watts > 0.0
    ensures kw == 0.0 <==> watts == 0.0
  {
    kw * WattsPerKilowatt
  }

  /** Converting to tons and back loses nothing. */
  lemma WattsTonsRoundTrip(watts: real, tons: real)
    ensures TonsToWatts(WattsToTons(watts)) == watts
    ensures WattsToTons(TonsToWatts(tons)) == tons
  {
  }
}
