/** The wall-material catalog and the per-material conduction load. */
module Materials {
  import opened Wrappers
  import opened Loads

  /** Thermal conductivity of each wall material, W/(m·K). */
  const Catalog: map<string, real> := map[
    "Brick" := 1.2,
    "Concrete" := 1.6,
    "Wood" := 0.15,
    "Insulated Panel" := 0.035]

  /** Why a load could not be computed. */
  datatype LoadError =
    | UnknownMaterial(name: string)  // the catalog has no such material
    | EmptyRange                     // no thickness to choose from

  /** Conductivity of the named material; an absent name is the dictionary's KeyError. */
  function Lookup(catalog: map<string, real>, material: string): (r: Result<real, LoadError>)
    ensures r.Success? <==> material in catalog
    ensures r.Success? ==> r.value == catalog[material]
    ensures r.Failure? ==> r.error == UnknownMaterial(material)
  {
    if material in catalog then Success(catalog[material]) else Failure(UnknownMaterial(material))
  }

  /**
   * Conduction load of a wall of the named material. The lookup comes first,
   * so an absent name is an error whatever the thickness.
   */
  function CoolingLoad(catalog: map<string, real>, material: string, area: real,
                       outdoor: real, indoor: real, thickness: real): (r: Result<real, LoadError>)
    requires material in catalog ==> thickness != 0.0
    ensures r.Failure? <==> material !in catalog
    ensures r.Failure? ==> r.error == UnknownMaterial(material)
    ensures r.Success? ==> r.value * thickness == catalog[material] * area * (outdoor - indoor)
  {
    var k :- Lookup(catalog, material);
    Success(Conduction(k, area, outdoor, indoor, thickness))
  }

  /** The catalog holds four materials, all conducting, insulated panel the least. */
  lemma CatalogContents()
    ensures Catalog.Keys == {"Brick", "Concrete", "Wood", "Insulated Panel"}
    ensures forall m :: m in Catalog ==> Catalog[m] > 0.0
    ensures forall m :: m in Catalog ==> Catalog["Insulated Panel"] <= Catalog[m]
    ensures "Styrofoam" !in Catalog
  {
  }
}
