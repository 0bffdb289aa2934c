/** The wall-thickness sweep: conduction load per thickness and the thickness of least load. */
module Sweep {
  import opened Wrappers
  import opened Loads
  import opened Materials
  import opened Selection

  /** What the sweep reports: the chosen thickness, its load, and every load for charting. */
  datatype SweepResult = SweepResult(optimalThickness: real, optimalLoad: real, loads: seq<real>)

  predicate NoZero(ts: seq<real>) {
    forall i :: 0 <= i < |ts| ==> ts[i] != 0.0
  }

  predicate AllPositive(ts: seq<real>) {
    forall i :: 0 <= i < |ts| ==> ts[i] > 0.0
  }

  predicate StrictlyIncreasing(ts: seq<real>) {
    forall i, j :: 0 <= i < j < |ts| ==> ts[i] < ts[j]
  }

  /** Conduction load at each thickness, in order. */
  function ConductionLoads(k: real, area: real, outdoor: real, indoor: real, ts: seq<real>): (loads: seq<real>)
    requires NoZero(ts)
    ensures |loads| == |ts|
    ensures forall i :: 0 <= i < |ts| ==> loads[i] * ts[i] == k * area * (outdoor - indoor)
  {
    if |ts| == 0 then []
    else [Conduction(k, area, outdoor, indoor, ts[0])] + ConductionLoads(k, area, outdoor, indoor, ts[1..])
  }

  /** Each load is the conduction formula applied to the matching thickness. */
  lemma {:induction false} ConductionLoadsPointwise(k: real, area: real, outdoor: real, indoor: real, ts: seq<real>, i: int)
    requires NoZero(ts) && 0 <= i < |ts|
    ensures ConductionLoads(k, area, outdoor, indoor, ts)[i] == Conduction(k, area, outdoor, indoor, ts[i])
  {
    if i > 0 {
      ConductionLoadsPointwise(k, area, outdoor, indoor, ts[1..], i - 1);
    }
  }

  /** Over thicker and thicker walls the load keeps falling when heat flows in. */
  lemma ThickerWallsLowerLoads(k: real, area: real, outdoor: real, indoor: real, ts: seq<real>)
    requires AllPositive(ts) && StrictlyIncreasing(ts)
    requires k * area * (outdoor - indoor) > 0.0
    ensures StrictlyDecreasing(ConductionLoads(k, area, outdoor, indoor, ts))
  {
    var loads := ConductionLoads(k, area, outdoor, indoor, ts);
    forall i, j | 0 <= i < j < |loads|
      ensures loads[j] < loads[i]
    {
      ConductionLoadsPointwise(k, area, outdoor, indoor, ts, i);
      ConductionLoadsPointwise(k, area, outdoor, indoor, ts, j);
      ConductionStrictlyDecreasing(k, area, outdoor, indoor, ts[i], ts[j]);
    }
  }

  /** Over a strictly increasing positive range, the thickest wall is the first minimum. */
  lemma LastThicknessIsOptimal(k: real, area: real, outdoor: real, indoor: real, ts: seq<real>)
    requires |ts| > 0 && AllPositive(ts) && StrictlyIncreasing(ts)
    requires k * area * (outdoor - indoor) > 0.0
    ensures IsFirstMin(ConductionLoads(k, area, outdoor, indoor, ts), |ts| - 1)
  {
    ThickerWallsLowerLoads(k, area, outdoor, indoor, ts);
    LastIsFirstMinOfDecreasing(ConductionLoads(k, area, outdoor, indoor, ts));
  }

  /**
   * Sweep the thicknesses for one material: the thickness at the first minimum
   * load, that minimum, and all loads. An empty range fails before any lookup;
   * otherwise an unknown material fails.
   */
  method SweepByThickness(catalog: map<string, real>, material: string, area: real,
                          outdoor: real, indoor: real, ts: seq<real>)
    returns (r: Result<SweepResult, LoadError>)
    requires material in catalog ==> NoZero(ts)
    ensures r == Failure(EmptyRange) <==> |ts| == 0
    ensures r == Failure(UnknownMaterial(material)) <==> |ts| > 0 && material !in catalog
    ensures r.Success? <==> |ts| > 0 && material in catalog
    ensures r.Success? ==> r.value.loads == ConductionLoads(catalog[material], area, outdoor, indoor, ts)
    ensures r.Success? ==> exists k :: IsFirstMin(r.value.loads, k)
                                       && r.value.optimalThickness == ts[k]
                                       && r.value.optimalLoad == r.value.loads[k]
    ensures r.Success? && AllPositive(ts) && StrictlyIncreasing(ts)
            && catalog[material] * area * (outdoor - indoor) > 0.0
            ==> r.value.optimalThickness == ts[|ts| - 1] && r.value.optimalLoad == r.value.loads[|ts| - 1]
  {
    if |ts| == 0 {
      return Failure(EmptyRange);
    }
    var k :- Lookup(catalog, material);
    var loads := ConductionLoads(k, area, outdoor, indoor, ts);
    var best := ArgMin(loads);
    var least := Min(loads);
    MinAtFirstMin(loads, best);
    if AllPositive(ts) && StrictlyIncreasing(ts) && k * area * (outdoor - indoor) > 0.0 {
      LastThicknessIsOptimal(k, area, outdoor, indoor, ts);
      FirstMinUnique(loads, best, |ts| - 1);
    }
    r := Success(SweepResult(ts[best], least, loads));
  }

  /** The script's thickness range, 5 cm to 50 cm in ten equal steps. */
  const DefaultRange: seq<real> := [0.05, 0.1, 0.15, 0.2, 0.25, 0.3, 0.35, 0.4, 0.45, 0.5]

  lemma DefaultRangeIncreasing()
    ensures |DefaultRange| == 10 && DefaultRange[0] == 0.05 && DefaultRange[9] == 0.5
    ensures AllPositive(DefaultRange) && NoZero(DefaultRange) && StrictlyIncreasing(DefaultRange)
  {
  }

  /** The default sweep: brick, 54 m², 35 °C outside, 22 °C inside, over the default range. */
  method SweepDefaultRoom() returns (r: Result<SweepResult, LoadError>)
    ensures r.Success?
    ensures r.value.optimalThickness == 0.5
    ensures r.value.optimalLoad == 1684.8
    ensures |r.value.loads| == 10 && r.value.loads[0] == 16848.0
  {
    DefaultRangeIncreasing();
    assert "Brick" in Catalog && Catalog["Brick"] * 54.0 * (35.0 - 22.0) == 842.4;
    r := SweepByThickness(Catalog, "Brick", 54.0, 35.0, 22.0, DefaultRange);
    assert r.Success?;
    var loads := r.value.loads;
    assert loads[0] * 0.05 == 842.4 && loads[9] * 0.5 == 842.4;
  }
}
