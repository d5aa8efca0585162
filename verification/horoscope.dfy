/** `HoroscopeGenerator`: its construction and `generate_horoscope`, with
    every random draw supplied by the caller and the report kept as
    structured data rather than coloured text. */
module Horoscope {
  import opened Results
  import opened Calendar
  import opened Zodiac
  import opened Signs
  import opened Compatibility
  import opened Chart
  import opened Predictions

  datatype Generator = Generator(
    signs: seq<Sign>,
    aspects: seq<string>,
    predictions: Bank,
    colors: map<string, string>)

  /** What `__init__` establishes and every later lookup relies on. */
  predicate Ready(g: Generator) {
    && g.signs == Table
    && g.aspects == Aspects
    && g.colors == Colors
    && forall i, a :: 0 <= i < |Table| && a in Aspects ==>
         Table[i].name in g.predictions && a in g.predictions[Table[i].name]
         && g.predictions[Table[i].name][a] == Templates(Table[i], a)
  }

  lemma TableNamesLast()
    ensures forall i :: 0 <= i < |Table| ==> LastWithName(Table, i, |Table|)
  {
    TableShape();
  }

  /** A table whose names are distinct has as many names as signs. */
  lemma {:induction false} DistinctNamesCount(signs: seq<Sign>)
    requires forall i, j :: 0 <= i < j < |signs| ==> signs[i].name != signs[j].name
    ensures |SignNames(signs)| == |signs|
  {
    if |signs| == 0 {
      assert SignNames(signs) == {};
    } else {
      var k := |signs| - 1;
      DistinctNamesCount(signs[..k]);
      SignNamesSnoc(signs, k);
      assert signs[..k + 1] == signs;
      assert signs[k].name !in SignNames(signs[..k]);
    }
  }

  /** Since the table's names are distinct, the templates stored for each
      sign are never overwritten by a later sign. */
  lemma TableBankComplete(bank: Bank)
    requires forall i, a :: 0 <= i < |Table| && LastWithName(Table, i, |Table|) && a in Aspects ==>
               Table[i].name in bank && a in bank[Table[i].name] && bank[Table[i].name][a] == Templates(Table[i], a)
    ensures forall i, a :: 0 <= i < |Table| && a in Aspects ==>
              Table[i].name in bank && a in bank[Table[i].name] && bank[Table[i].name][a] == Templates(Table[i], a)
  {
    TableNamesLast();
  }

  /** A bank keyed by the table's names, each mapping the five aspects,
      has twelve entries of five. */
  lemma TableBankSize(bank: Bank)
    requires bank.Keys == SignNames(Table)
    requires forall n :: n in bank ==> bank[n].Keys == set a | a in Aspects
    ensures |bank| == 12
    ensures forall n :: n in bank ==> |bank[n]| == 5
  {
    TableShape();
    DistinctNamesCount(Table);
    AspectsDistinct();
    assert |bank| == |bank.Keys|;
  }

  /** `HoroscopeGenerator()`: the sign table, the aspect list, a bank of
      12 names by 5 aspects by 5 templates, and the colour table. */
  method NewGenerator() returns (g: Generator)
    ensures Ready(g)
    ensures |g.signs| == 12 && |g.aspects| == 5
    ensures g.predictions.Keys == SignNames(Table) && |g.predictions| == 12
    ensures forall n :: n in g.predictions ==> |g.predictions[n]| == 5
    ensures forall n, a :: n in g.predictions && a in g.predictions[n] ==> |g.predictions[n][a]| == TemplatesPerAspect
  {
    var bank := LoadPredictions(Table, Aspects);
    TableBankComplete(bank);
    TableBankSize(bank);
    g := Generator(Table, Aspects, bank, Colors);
  }

  /** Every value `generate_horoscope` draws, as indices into the lists
      `random.choice` picks from, or as the drawn numbers. */
  datatype Draws = Draws(
    ascendantPick: nat,
    moonPick: nat,
    degrees: seq<real>,
    predictionPicks: seq<nat>,
    luckyNumber: int,
    compatibilityBase: real,
    advicePick: nat)

  /** The ranges of `random.choice`, `random.uniform` and `random.randint`. */
  predicate ValidDraws(d: Draws) {
    && d.ascendantPick < |Table| && d.moonPick < |Table|
    && |d.degrees| == |Bodies| && (forall i :: 0 <= i < |d.degrees| ==> IsDegreeDraw(d.degrees[i]))
    && |d.predictionPicks| == |Aspects| && (forall i :: 0 <= i < |d.predictionPicks| ==> d.predictionPicks[i] < TemplatesPerAspect)
    && 1 <= d.luckyNumber <= 100
    && 0.5 <= d.compatibilityBase <= 1.0
    && d.advicePick < 5
  }

  datatype Placement = Placement(body: CelestialBody, sign: Sign)

  /** The sections of the printed horoscope, in order. */
  datatype Report = Report(
    date: CalendarDate,
    sun: Sign,
    predictions: seq<(string, Template)>,
    luckyNumber: int,
    luckyColor: string,
    ascendant: Sign,
    moon: Sign,
    placements: seq<Placement>,
    compatibility: real,
    advice: Advice)

  /** The planet listing: each body with the sign of its 30-degree sector. */
  function Placements(planets: seq<CelestialBody>): (ps: seq<Placement>)
    requires forall i :: 0 <= i < |planets| ==> IsDegreeDraw(planets[i].degrees)
    ensures |ps| == |planets|
    ensures forall i :: 0 <= i < |ps| ==>
              ps[i].body == planets[i] && PlanetSign(planets[i].degrees) == Ok(ps[i].sign)
  {
    seq(|planets|, i requires 0 <= i < |planets| =>
      SectorInTable(planets[i].degrees);
      Placement(planets[i], Table[SectorIndex(planets[i].degrees)]))
  }

  /** A ready generator holds the five templates of every aspect under the
      name of every sign of the table. */
  lemma ReadyLookup(g: Generator, s: Sign)
    requires Ready(g) && s in Table
    ensures forall a :: a in Aspects ==> s.name in g.predictions && a in g.predictions[s.name]
                                         && g.predictions[s.name][a] == Templates(s, a)
  {
    var k :| 0 <= k < |Table| && Table[k] == s;
  }

  /** The loop over aspects: `random.choice(self.predictions[sign.name][aspect])`
      with the choice given by index. */
  function SelectPredictions(g: Generator, sun: Sign, picks: seq<nat>): (ps: seq<(string, Template)>)
    requires Ready(g) && sun in Table
    requires |picks| == |Aspects| && forall i :: 0 <= i < |picks| ==> picks[i] < TemplatesPerAspect
    ensures |ps| == |Aspects|
    ensures forall i :: 0 <= i < |ps| ==> ps[i].0 == Aspects[i] && ps[i].1 == Templates(sun, Aspects[i])[picks[i]]
  {
    ReadyLookup(g, sun);
    seq(|g.aspects|, i requires 0 <= i < |g.aspects| =>
      assert g.aspects[i] in Aspects;
      (g.aspects[i], g.predictions[sun.name][g.aspects[i]][picks[i]]))
  }

  /** `generate_horoscope`. */
  function GenerateHoroscope(g: Generator, birth: CalendarDate, today: CalendarDate, d: Draws): (r: Report)
    requires Ready(g) && ValidDraws(d)
    ensures r.date.year == today.year && r.date.month == today.month && r.date.day == today.day
    ensures r.sun == ResolveMonthDay(Table, MonthDayOf(birth)) && r.sun in Table
    ensures |r.predictions| == |Aspects|
    ensures forall i :: 0 <= i < |Aspects| ==>
              i < |r.predictions| && r.predictions[i] == (Aspects[i], Templates(r.sun, Aspects[i])[d.predictionPicks[i]])
    ensures r.luckyNumber == d.luckyNumber && 1 <= r.luckyNumber <= 100
    ensures r.luckyColor == Colors[r.sun.name]
    ensures r.ascendant == Table[d.ascendantPick] && r.moon == Table[d.moonPick]
    ensures |r.placements| == PlanetCount
    ensures forall i :: 0 <= i < |r.placements| ==>
              r.placements[i].body == CelestialBody(Bodies[i].0, Bodies[i].1, d.degrees[i])
              && r.placements[i].sign == Table[SectorIndex(d.degrees[i])]
    ensures r.compatibility == Score(r.sun, r.moon, d.compatibilityBase)
    ensures 0.5 <= r.compatibility <= 1.0
    ensures r.advice == DailyAdvice(r.sun)[d.advicePick]
  {
    var chart := GenerateChart(birth, d.ascendantPick, d.moonPick, d.degrees);
    var sun := chart.sun;
    var preds := SelectPredictions(g, sun, d.predictionPicks);
    ColorsCoverSigns();
    Report(today, sun, preds, d.luckyNumber, g.colors[sun.name], chart.ascendant, chart.moon,
           Placements(chart.planets), Score(sun, chart.moon, d.compatibilityBase),
           DailyAdvice(sun)[d.advicePick])
  }
}
