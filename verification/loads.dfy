/** The steady-state heat-load formulas of the calculator, over exact reals. */
module Loads {
  import opened Units

  /** Specific heat capacity of air, kJ/(kg·K). */
  const SpecificHeatAir: real := 1.005

  /** Density of air at standard conditions, kg/m³. */
  const DensityAir: real := 1.2

  function RectangleArea(a: real, b: real): real {
    a * b
  }

  /** Surface of the four walls of a box-shaped room. */
  function WallArea(length: real, width: real, height: real): (area: real)
    ensures area == RectangleArea(length, height) + RectangleArea(width, height)
                  + RectangleArea(length, height) + RectangleArea(width, height)
    ensures length > 0.0 && width > 0.0 && height > 0.0 ==> area > 0.0
  {
    2.0 * height * (length + width)
  }

  /** Conduction through a wall, Fourier's law Q = k·A·ΔT/d, in watts. */
  function Conduction(k: real, area: real, outdoor: real, indoor: real, thickness: real): (q: real)
    requires thickness != 0.0
    ensures q * thickness == k * area * (outdoor - indoor)
  {
    (k * area * (outdoor - indoor)) / thickness
  }

  lemma ConductionScalesWithConductivity(c: real, k: real, area: real, outdoor: real, indoor: real, thickness: real)
    requires thickness != 0.0
    ensures Conduction(c * k, area, outdoor, indoor, thickness) == c * Conduction(k, area, outdoor, indoor, thickness)
  {
  }

  lemma ConductionScalesWithArea(c: real, k: real, area: real, outdoor: real, indoor: real, thickness: real)
    requires thickness != 0.0
    ensures Conduction(k, c * area, outdoor, indoor, thickness) == c * Conduction(k, area, outdoor, indoor, thickness)
  {
  }

  /** The load is not clamped: it follows the sign of the temperature difference. */
  lemma ConductionSign(k: real, area: real, outdoor: real, indoor: real, thickness: real)
    requires k > 0.0 && area > 0.0 && thickness > 0.0
    ensures Conduction(k, area, outdoor, indoor, thickness) > 0.0 <==> outdoor > indoor
    ensures Conduction(k, area, outdoor, indoor, thickness) == 0.0 <==> outdoor == indoor
    ensures Conduction(k, area, outdoor, indoor, thickness) < 0.0 <==> outdoor < indoor
  {
  }

  /** A thicker wall conducts strictly less when heat flows in. */
  lemma ConductionStrictlyDecreasing(k: real, area: real, outdoor: real, indoor: real, thin: real, thick: real)
    requires 0.0 < thin < thick
    requires k * area * (outdoor - indoor) > 0.0
    ensures Conduction(k, area, outdoor, indoor, thick) < Conduction(k, area, outdoor, indoor, thin)
  {
    var heat := k * area * (outdoor - indoor);
    var qThin := Conduction(k, area, outdoor, indoor, thin);
    var qThick := Conduction(k, area, outdoor, indoor, thick);
    assert qThin > 0.0;
    assert qThick * thick == heat == qThin * thin;
    assert qThin * thin < qThin * thick;
  }

  /** Splitting the temperature drop at an intermediate temperature splits the load. */
  lemma ConductionTemperatureAdditive(k: real, area: real, outdoor: real, middle: real, indoor: real, thickness: real)
    requires thickness != 0.0
    ensures Conduction(k, area, outdoor, indoor, thickness)
         == Conduction(k, area, outdoor, middle, thickness) + Conduction(k, area, middle, indoor, thickness)
  {
  }

  /** Solar gain through glazing: window area × SHGC × incident radiation. */
  function Solar(windowArea: real, shgc: real, radiation: real): (q: real)
    ensures 0.0 <= windowArea && 0.0 <= shgc && 0.0 <= radiation ==> 0.0 <= q
  {
    windowArea * shgc * radiation
  }

  /** Glazing admits at most the radiation incident on it when 0 <= SHGC <= 1. */
  lemma SolarAtMostIncident(windowArea: real, shgc: real, radiation: real)
    requires 0.0 <= windowArea && 0.0 <= radiation
    requires 0.0 <= shgc <= 1.0
    ensures Solar(windowArea, shgc, radiation) <= windowArea * radiation
  {
    var incident := windowArea * radiation;
    assert Solar(windowArea, shgc, radiation) == incident * shgc;
    assert incident * shgc <= incident * 1.0;
  }

  /** Sensible heat of the occupants. */
  function PeopleLoad(count: int, heatPerPerson: real): (q: real)
    ensures count >= 0 && heatPerPerson >= 0.0 ==> q >= 0.0
    ensures count == 0 ==> q == 0.0
  {
    count as real * heatPerPerson
  }

  /** Reference definition: the sum of each occupant's own sensible heat. */
  function OccupantsHeat(heats: seq<real>): real {
    if |heats| == 0 then 0.0 else heats[0] + OccupantsHeat(heats[1..])
  }

  lemma {:induction false} PeopleLoadIsSumOverOccupants(heats: seq<real>, heatPerPerson: real)
    requires forall i :: 0 <= i < |heats| ==> heats[i] == heatPerPerson
    ensures PeopleLoad(|heats|, heatPerPerson) == OccupantsHeat(heats)
  {
    if |heats| > 0 {
      PeopleLoadIsSumOverOccupants(heats[1..], heatPerPerson);
    }
  }

  /** Mass flow of fresh air, kg/s, from its density and volumetric flow. */
  function MassFlow(density: real, airflow: real): (m: real)
    ensures density > 0.0 && airflow > 0.0 ==> m > 0.0
    ensures airflow == 0.0 ==> m == 0.0
  {
    density * airflow
  }

  /** Fresh-air load m·Cp·ΔT with m = ρ·V̇; m·Cp is in kJ/(s·K), so the kW result is scaled to W. */
  function Ventilation(density: real, airflow: real, cp: real, outdoor: real, indoor: real): (q: real)
    ensures density * airflow * cp > 0.0 ==> (q > 0.0 <==> outdoor > indoor)
    ensures density * airflow * cp > 0.0 ==> (q < 0.0 <==> outdoor < indoor)
    ensures outdoor == indoor ==> q == 0.0
  {
    KilowattsToWatts(MassFlow(density, airflow) * cp * (outdoor - indoor))
  }

  /** One kelvin of difference costs ρ·V̇·Cp kilowatts, i.e. a thousand times that in watts. */
  lemma VentilationPerKelvin(density: real, airflow: real, cp: real, indoor: real)
    ensures Ventilation(density, airflow, cp, indoor + 1.0, indoor) == 1000.0 * density * airflow * cp
  {
  }

  lemma VentilationTemperatureAdditive(density: real, airflow: real, cp: real, outdoor: real, middle: real, indoor: real)
    ensures Ventilation(density, airflow, cp, outdoor, indoor)
         == Ventilation(density, airflow, cp, outdoor, middle) + Ventilation(density, airflow, cp, middle, indoor)
  {
  }

  lemma VentilationScalesWithAirflow(c: real, density: real, airflow: real, cp: real, outdoor: real, indoor: real)
    ensures Ventilation(density, c * airflow, cp, outdoor, indoor) == c * Ventilation(density, airflow, cp, outdoor, indoor)
  {
  }
}
