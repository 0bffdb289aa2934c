# Steady-state cooling-load calculator, modelled in Dafny

This project models the computational core of `HVAC_Calculations.py`. That script estimates a room's steady-state cooling load. The load has five terms:

- conduction through the walls (Fourier's law `k·A·ΔT/d`);
- solar gain through the windows;
- occupant heat;
- appliance heat;
- fresh-air ventilation (`ρ·V̇·Cp·ΔT`, scaled from kW to W).

The script adds the five terms and converts the total to tons of refrigeration (1 TR = 3517 W). It also sweeps the wall thickness for one material taken from a fixed conductivity catalog. It then picks the thickness at the first minimum of the conduction load (`np.argmin` semantics) and the minimum itself (`min`).

Every floating-point quantity is a Dafny `real`. The module-level globals that `calculate_cooling_load` reads (wall area, outdoor and indoor temperature) are explicit parameters. The catalog is a parameter too; the script's fixed catalog is the constant `Materials.Catalog`.

Files:

- `wrappers.dfy`: `Result` type for the script's exceptions.
- `units.dfy`: W ↔ TR and kW → W conversions.
- `loads.dfy`: wall area, conduction, solar, people and ventilation formulas, with their linearity, sign, monotonicity and additivity lemmas.
- `breakdown.dfy`: the room record, the default room, the five-term breakdown, its total and TR value.
- `materials.dfy`: the catalog and `calculate_cooling_load`.
- `selection.dfy`: first index of the minimum (a loop) and the minimum (a recursive function), and how they agree.
- `sweep.dfy`: the thickness sweep, and the proof that the thickest wall wins over an increasing range.

Two details of the script decide the model's error cases:

- The script fails only on a zero thickness: line 34 divides by a Python float. So `Loads.Conduction` requires `thickness != 0`, and a negative thickness simply gives a load. The monotonicity lemmas ask for positive thicknesses themselves.
- The lookup at line 81 runs before the division at line 82, so an unknown material is a KeyError whatever the thickness. That lookup runs inside the comprehension at line 88, so an empty range never reaches it. `np.argmin` at line 91 then fails first, so `Sweep.SweepByThickness` reports `EmptyRange` for an empty range, and `UnknownMaterial` for a non-empty range with an unknown material.

## Model

| member | source | states |
|---|---|---|
| Units.WattsToTons | HVAC_Calculations.py:49 | the TR value times 3517 gives back the watts; the TR value is positive exactly when the load is; a positive load shrinks |
| Units.WattsTonsRoundTrip | HVAC_Calculations.py:49 | converting W to TR and back, or TR to W and back, is the identity |
| Units.KilowattsToWatts | HVAC_Calculations.py:45 | the watt value divided by 1000 is the kW value; the conversion keeps sign and zero |
| Loads.WallArea | HVAC_Calculations.py:18 | the wall area equals the sum of the four wall rectangles (two l×h and two w×h), and is positive for a room with positive dimensions |
| Loads.Conduction | HVAC_Calculations.py:34 | the load times the thickness equals k·A·(To−Ti); defined for any non-zero thickness |
| Loads.ConductionScalesWithConductivity | HVAC_Calculations.py:34 | scaling the conductivity by c scales the load by c |
| Loads.ConductionScalesWithArea | HVAC_Calculations.py:34 | scaling the wall area by c scales the load by c |
| Loads.ConductionSign | HVAC_Calculations.py:34 | for positive k, A and d the load is positive, zero or negative exactly as outdoor is hotter than, equal to or colder than indoor; nothing is clamped |
| Loads.ConductionStrictlyDecreasing | HVAC_Calculations.py:34 | when k·A·ΔT > 0, a strictly thicker wall gives a strictly smaller load |
| Loads.ConductionTemperatureAdditive | HVAC_Calculations.py:34 | the load for To→Ti is the load for To→Tm plus the load for Tm→Ti |
| Loads.Solar | HVAC_Calculations.py:37 | the solar gain is non-negative for non-negative area, SHGC and radiation |
| Loads.SolarAtMostIncident | HVAC_Calculations.py:37 | with 0 ≤ SHGC ≤ 1 the gain never exceeds the radiation incident on the window |
| Loads.PeopleLoad | HVAC_Calculations.py:40 | the people load is non-negative for a non-negative count and per-person heat, and zero for an empty room |
| Loads.PeopleLoadIsSumOverOccupants | HVAC_Calculations.py:40 | the people load n·h equals the sum of each of the n occupants' heat h |
| Loads.MassFlow | HVAC_Calculations.py:44 | the mass flow is positive for positive density and airflow, and zero without airflow |
| Loads.Ventilation | HVAC_Calculations.py:43-45 | for positive ρ·V̇·Cp the ventilation load is positive or negative exactly as outdoor is hotter or colder than indoor, and zero at equal temperatures |
| Loads.VentilationPerKelvin | HVAC_Calculations.py:44-45 | one kelvin of difference costs 1000·ρ·V̇·Cp watts: the kW→W factor is exactly 1000 |
| Loads.VentilationTemperatureAdditive | HVAC_Calculations.py:45 | the ventilation load is additive across an intermediate temperature |
| Loads.VentilationScalesWithAirflow | HVAC_Calculations.py:44-45 | scaling the airflow by c scales the ventilation load by c |
| Breakdown.LoadBreakdown.TotalTons | HVAC_Calculations.py:48-49 | the total in tons of refrigeration, multiplied by 3517, is exactly the total in watts |
| Breakdown.Compute | HVAC_Calculations.py:34-48 | the appliance term is the appliance power passed through; at equal temperatures conduction and ventilation vanish and the total is solar + people + appliances |
| Breakdown.TotalAffineInOutdoor | HVAC_Calculations.py:34-48 | raising the outdoor temperature by Δ raises the total by Δ·(k·A/d + 1000·ρ·V̇·Cp) exactly |
| Breakdown.TotalRisesWithOutdoor | HVAC_Calculations.py:48 | for a room with positive dimensions, conductivity and thickness and non-negative airflow, a hotter outdoor temperature strictly raises the total |
| Breakdown.DefaultRoomLoads | HVAC_Calculations.py:6-49 | the default room has 54 m² of wall and loads 4212 + 1400 + 200 + 500 + 1567.8 = 7879.8 W, between 2.24 and 2.25 TR |
| Materials.Lookup | HVAC_Calculations.py:81 | the lookup succeeds exactly when the material is in the catalog, with its conductivity, and otherwise fails with UnknownMaterial (the KeyError) |
| Materials.CoolingLoad | HVAC_Calculations.py:80-83 | a material absent from the catalog fails with UnknownMaterial (the KeyError), at any thickness including zero; otherwise the load times the thickness is the catalog conductivity times A·(To−Ti) |
| Materials.CatalogContents | HVAC_Calculations.py:72-77 | the catalog holds exactly Brick, Concrete, Wood and Insulated Panel, all with positive conductivity, Insulated Panel the least; Styrofoam is absent |
| Selection.FirstMinUnique | HVAC_Calculations.py:91 | at most one index is the first minimum, so the argmin is well defined |
| Selection.ArgMin | HVAC_Calculations.py:91 | the index returned holds a value ≤ every value, and every earlier value is strictly larger (np.argmin's first occurrence) |
| Selection.Min | HVAC_Calculations.py:92 | the minimum is an element of the sequence and ≤ every element |
| Selection.MinAtFirstMin | HVAC_Calculations.py:91-92 | `min(cooling_loads)` equals the load at the argmin index |
| Selection.LastIsFirstMinOfDecreasing | HVAC_Calculations.py:91 | in a strictly decreasing sequence the last index is the first minimum |
| Sweep.ConductionLoads | HVAC_Calculations.py:88 | one load per thickness, and each load times its thickness is k·A·(To−Ti) |
| Sweep.ConductionLoadsPointwise | HVAC_Calculations.py:88 | element i of the sweep is the conduction load at thickness i |
| Sweep.ThickerWallsLowerLoads | HVAC_Calculations.py:87-88 | over a strictly increasing positive thickness range with k·A·ΔT > 0 the loads strictly decrease |
| Sweep.LastThicknessIsOptimal | HVAC_Calculations.py:87-91 | under the same conditions the last thickness is the first minimum |
| Sweep.SweepByThickness | HVAC_Calculations.py:80-92 | an empty range fails with EmptyRange; otherwise an unknown material fails with UnknownMaterial; on success the loads are the per-thickness conduction loads, the optimal thickness is at the first-minimum index and the optimal load is the load there, and for an increasing positive range with k·A·ΔT > 0 the optimal thickness is the last one |
| Sweep.SweepDefaultRoom | HVAC_Calculations.py:86-92 | brick over 0.05 to 0.5 m in ten steps: the optimum is 0.5 m at 1684.8 W, and the thinnest wall loads 16848 W |

## Left out

- The bar and line charts (lines 59-69 and 99-106): presentation only.
- The console output with two decimals (lines 52-57 and 95-97): console I/O.
- How `np.linspace` generates the range (line 87). The sweep takes the thickness sequence as input. `Sweep.SweepDefaultRoom` uses the exact decimal values 0.05, 0.10, …, 0.50.
- IEEE-754 rounding, infinities and NaN. Every quantity is an exact real.
- Sweep.SweepByThickness: for a material in the catalog, requires every thickness to be non-zero. With a known material, numpy's float division by a zero thickness yields an infinite load with a warning rather than an error, and reals cannot represent that. An unknown material is reported at any thickness.
- Loads.Conduction: a zero thickness raises `ZeroDivisionError` in the script. The model makes it a precondition rather than an error value. `Materials.CoolingLoad` only asks for it when the material is known, since the lookup fails first otherwise.
- The load total (line 48) is `LoadBreakdown.Total`. It carries no contract of its own, because any contract would only repeat the sum. Its behaviour is stated through `Breakdown.TotalAffineInOutdoor`, `Breakdown.TotalRisesWithOutdoor` and `Breakdown.DefaultRoomLoads`.
