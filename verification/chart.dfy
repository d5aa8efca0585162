/** `CelestialBody`, `AstrologicalChart`, `generate_astrological_chart` and
    the degree-to-sign lookup of the planet listing. */
module Chart {
  import opened Results
  import opened Calendar
  import opened Zodiac
  import opened Signs

  datatype CelestialBody = CelestialBody(name: string, symbol: string, degrees: real)

  /** The ten bodies placed on every chart, in listing order. */
  const Bodies: seq<(string, string)> := [
    ("Солнце", "☉"), ("Луна", "☽"), ("Меркурий", "☿"), ("Венера", "♀"), ("Марс", "♂"),
    ("Юпитер", "♃"), ("Сатурн", "♄"), ("Уран", "♅"), ("Нептун", "♆"), ("Плутон", "♇")
  ]

  const PlanetCount: nat := 10

  datatype AstrologicalChart = AstrologicalChart(
    sun: Sign,
    ascendant: Sign,
    moon: Sign,
    planets: seq<CelestialBody>)

  /** A value `random.uniform(0, 360)` is taken to produce. */
  predicate IsDegreeDraw(x: real) {
    0.0 <= x < 360.0
  }

  /** `_generate_planet_positions` with the ten drawn longitudes supplied:
      body `i` of the fixed list is placed at `degrees[i]`. */
  function PlanetPositions(degrees: seq<real>): (ps: seq<CelestialBody>)
    requires |degrees| == |Bodies|
    ensures |ps| == PlanetCount
    ensures forall i :: 0 <= i < |ps| ==>
              ps[i].name == Bodies[i].0 && ps[i].symbol == Bodies[i].1 && ps[i].degrees == degrees[i]
  {
    seq(|Bodies|, i requires 0 <= i < |Bodies| => CelestialBody(Bodies[i].0, Bodies[i].1, degrees[i]))
  }

  /** `generate_astrological_chart`: the sun sign comes from the birth date,
      ascendant and moon are `random.choice` picks given by index, and the
      planets sit at the drawn longitudes. */
  function GenerateChart(birth: CalendarDate, ascendantPick: nat, moonPick: nat, degrees: seq<real>)
    : (c: AstrologicalChart)
    requires ascendantPick < |Table| && moonPick < |Table|
    requires |degrees| == |Bodies| && forall i :: 0 <= i < |degrees| ==> IsDegreeDraw(degrees[i])
    ensures c.sun == ResolveMonthDay(Table, MonthDayOf(birth)) && c.sun != Capricorn
    ensures c.ascendant == Table[ascendantPick] && c.moon == Table[moonPick]
    ensures c.planets == PlanetPositions(degrees) && |c.planets| == PlanetCount
    ensures forall i :: 0 <= i < |c.planets| ==>
              c.planets[i].name == Bodies[i].0 && c.planets[i].symbol == Bodies[i].1
              && c.planets[i].degrees == degrees[i] && IsDegreeDraw(c.planets[i].degrees)
  {
    SunSignTotal(birth);
    SunSignNeverCapricorn(birth);
    AstrologicalChart(SunSign(Table, birth).value, Table[ascendantPick], Table[moonPick], PlanetPositions(degrees))
  }

  /** The ten bodies are distinct and each appears once. */
  lemma BodiesDistinct()
    ensures |Bodies| == PlanetCount
    ensures forall i, j :: 0 <= i < j < |Bodies| ==> Bodies[i].0 != Bodies[j].0 && Bodies[i].1 != Bodies[j].1
  {
  }

  /** `math.floor(degrees / 30)`. */
  function SectorIndex(degrees: real): (k: int)
    ensures (k * 30) as real <= degrees < ((k + 1) * 30) as real
  {
    (degrees / 30.0).Floor
  }

  /** `self.zodiac_signs[math.floor(planet.degrees / 30)]`, with Python's list
      indexing: negative indices wrap, too large an index raises. */
  function PlanetSign(degrees: real): (r: Result<Sign>)
    ensures r.Ok? <==> -360.0 <= degrees < 360.0
    ensures IsDegreeDraw(degrees) ==> r == Ok(Table[SectorIndex(degrees)])
  {
    PyIndex(Table, SectorIndex(degrees))
  }

  /** Each longitude in [0, 360) lands in one of the twelve 30-degree sectors,
      the one that starts at 30 times its index. */
  lemma SectorInTable(degrees: real)
    requires IsDegreeDraw(degrees)
    ensures 0 <= SectorIndex(degrees) < |Table|
    ensures (SectorIndex(degrees) * 30) as real <= degrees < (SectorIndex(degrees) * 30 + 30) as real
    ensures PlanetSign(degrees).Ok?
  {
  }

  lemma SectorExamples()
    ensures PlanetSign(0.0) == Ok(Aries)
    ensures PlanetSign(359.999) == Ok(Pisces)
    ensures PlanetSign(360.0) == Err(IndexError)
  {
    assert SectorIndex(0.0) == 0;
    assert SectorIndex(359.999) == 11;
    assert SectorIndex(360.0) == 12;
  }
}
