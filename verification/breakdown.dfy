/** A room's cooling-load breakdown: the five terms, their total and the total in tons. */
module Breakdown {
  import opened Units
  import opened Loads

  /** Every input the calculation reads; temperatures in °C, lengths in m. */
  datatype Room = Room(
    length: real, width: real, height: real,
    indoor: real, outdoor: real,
    airflow: real,
    wallThickness: real, wallConductivity: real,
    windowArea: real, shgc: real, radiation: real,
    people: int, heatPerPerson: real,
    appliancePower: real)

  /** The fixed room the calculator evaluates: 5×4×3 m, brick wall 0.2 m, 22 °C inside, 35 °C outside. */
  const DefaultRoom: Room := Room(
    5.0, 4.0, 3.0,
    22.0, 35.0,
    0.1,
    0.2, 1.2,
    4.0, 0.7, 500.0,
    2, 100.0,
    500.0)

  /** The five load terms in watts. */
  datatype LoadBreakdown = LoadBreakdown(
    conduction: real, solar: real, people: real, appliances: real, ventilation: real)
  {
    function Total(): real {
      conduction + solar + people + appliances + ventilation
    }

    function TotalTons(): (tons: real)
      ensures tons * WattsPerTon == Total()
    {
      WattsToTons(Total())
    }
  }

  function WallAreaOf(room: Room): real {
    WallArea(room.length, room.width, room.height)
  }

  /** Compute every load term of a room. */
  function Compute(room: Room): (b: LoadBreakdown)
    requires room.wallThickness != 0.0
    ensures b.appliances == room.appliancePower
    ensures room.outdoor == room.indoor ==> b.conduction == 0.0 && b.ventilation == 0.0
    ensures room.outdoor == room.indoor ==> b.Total() == b.solar + b.people + b.appliances
  {
    LoadBreakdown(
      Conduction(room.wallConductivity, WallAreaOf(room), room.outdoor, room.indoor, room.wallThickness),
      Solar(room.windowArea, room.shgc, room.radiation),
      PeopleLoad(room.people, room.heatPerPerson),
      room.appliancePower,
      Ventilation(DensityAir, room.airflow, SpecificHeatAir, room.outdoor, room.indoor))
  }

  /** Watts per kelvin of outdoor-indoor difference: wall conductance plus fresh-air capacity. */
  function HeatGainCoefficient(room: Room): real
    requires room.wallThickness != 0.0
  {
    room.wallConductivity * WallAreaOf(room) / room.wallThickness
    + WattsPerKilowatt * DensityAir * room.airflow * SpecificHeatAir
  }

  /** The total is affine in the outdoor temperature, with the room's heat-gain coefficient as slope. */
  lemma TotalAffineInOutdoor(room: Room, outdoor: real)
    requires room.wallThickness != 0.0
    ensures Compute(room.(outdoor := outdoor)).Total() - Compute(room).Total()
         == (outdoor - room.outdoor) * HeatGainCoefficient(room)
  {
  }

  /** A hotter day never lowers the load of a physically valid room. */
  lemma TotalRisesWithOutdoor(room: Room, outdoor: real)
    requires room.wallThickness > 0.0 && room.wallConductivity > 0.0
    requires room.length > 0.0 && room.width > 0.0 && room.height > 0.0
    requires room.airflow >= 0.0
    requires outdoor > room.outdoor
    ensures Compute(room.(outdoor := outdoor)).Total() > Compute(room).Total()
  {
    TotalAffineInOutdoor(room, outdoor);
    var area := WallAreaOf(room);
    assert room.wallConductivity * area > 0.0;
    assert HeatGainCoefficient(room) > 0.0;
  }

  /** The default room: 4212 + 1400 + 200 + 500 + 1567.8 = 7879.8 W. */
  lemma DefaultRoomLoads()
    ensures WallAreaOf(DefaultRoom) == 54.0
    ensures Compute(DefaultRoom) == LoadBreakdown(4212.0, 1400.0, 200.0, 500.0, 1567.8)
    ensures Compute(DefaultRoom).Total() == 7879.8
    ensures 2.24 < Compute(DefaultRoom).TotalTons() < 2.25
  {
  }
}
