/** The quantities the dashboard derives from the energy estimate and the
    inputs: CO2 emissions and their tree and car equivalents (app.py, lines
    217-231), the label beside the CO2 figure (line 223) and the five
    "impact factors" of the bar chart (lines 244-250). */
module Derived {
  import opened Profiles
  import opened Heuristic

  /** Tonnes of CO2 emitted per kBtu consumed. */
  const EmissionFactor: real := 0.0001
  /** Trees needed to absorb one tonne of CO2 in a year. */
  const TreesPerTonne: real := 45.0
  /** Tonnes of CO2 one car emits in a year. */
  const TonnesPerCar: real := 4.6

  /** Annual CO2 emissions, tonnes, for an annual consumption in kBtu. The
      consumption can be recovered from it: it is 10,000 times the emissions. */
  function Co2(energy: real): (co2: real)
    ensures co2 * 10000.0 == energy
  {
    energy * EmissionFactor
  }

  /** Trees equivalent to the emissions: 45 per tonne. */
  function Trees(co2: real): (trees: real)
    ensures trees / TreesPerTonne == co2
  {
    co2 * TreesPerTonne
  }

  /** Cars equivalent to the emissions: one per 4.6 tonnes. */
  function Cars(co2: real): (cars: real)
    ensures cars * TonnesPerCar == co2
  {
    co2 / TonnesPerCar
  }

  /** Everything the CO2 column shows for one profile. */
  datatype Emissions = Emissions(energy: real, co2: real, trees: real, cars: real)

  function EmissionsOf(p: Profile): (r: Emissions)
    ensures r.energy == PredictEnergy(p)
    ensures r.co2 == r.energy * 0.0001
    ensures r.trees == r.co2 * 45.0 && r.cars * 4.6 == r.co2
    ensures InWidgetRange(p) ==> r.co2 > 0.0 && r.trees > 0.0 && r.cars > 0.0
  {
    var energy := PredictEnergy(p);
    var co2 := Co2(energy);
    Emissions(energy, co2, Trees(co2), Cars(co2))
  }

  /** The derived quantities are fixed multiples of the energy estimate and
      of one another: 0.0045 trees and 1/46,000 cars per kBtu, 207 trees per
      car. */
  lemma EquivalentsAreLinear(energy: real)
    ensures Trees(Co2(energy)) == energy * 0.0045
    ensures Cars(Co2(energy)) * 46000.0 == energy
    ensures Trees(Co2(energy)) == Cars(Co2(energy)) * 207.0
  {
  }

  /** Emissions grow with consumption, so with the other inputs held fixed
      they are monotone in each input exactly as the energy estimate is. */
  lemma EmissionsMonotone(p: Profile, q: Profile)
    requires InWidgetRange(p) && InWidgetRange(q)
    requires p.gfa <= q.gfa && p.floors <= q.floors && p.age <= q.age
    requires p.score >= q.score
    requires TypeFactor(p.kind) <= TypeFactor(q.kind)
    ensures EmissionsOf(p).co2 <= EmissionsOf(q).co2
    ensures EmissionsOf(p).trees <= EmissionsOf(q).trees
    ensures EmissionsOf(p).cars <= EmissionsOf(q).cars
    ensures EmissionsOf(p).co2 < EmissionsOf(q).co2 <==> PredictEnergy(p) < PredictEnergy(q)
    ensures EmissionsOf(p).trees < EmissionsOf(q).trees <==> PredictEnergy(p) < PredictEnergy(q)
    ensures EmissionsOf(p).cars < EmissionsOf(q).cars <==> PredictEnergy(p) < PredictEnergy(q)
  {
    EnergyMonotone(p, q);
  }

  /** The annotation beside the CO2 figure: below a score of 75, the share of
      emissions that could be saved, in percent; from 75 on, "Excellent!". */
  datatype Co2Delta = Savable(percent: real) | Excellent

  function Co2DeltaOf(score: int): (d: Co2Delta)
    ensures d.Excellent? <==> score >= 75
    ensures d.Savable? ==> d.percent > 12.5
    ensures d.Savable? && score >= 1 ==> d.percent <= 49.5
  {
    if score < 75 then Savable((1.0 - score as real / 100.0) * 50.0) else Excellent
  }

  /** The five bars of the impact chart. */
  datatype ImpactFactors = ImpactFactors(
    surface: real,  // floor area / 50,000
    floors: real,   // floors / 10
    age: real,      // age / 50
    score: real,    // (100 - score) / 50
    kind: real      // the type factor
  )

  /** The chart's bars. The building-type bar is the very factor the estimate
      multiplies by; on the widget ranges every bar is non-negative and
      bounded. */
  function ImpactFactorsOf(p: Profile): (r: ImpactFactors)
    ensures r.kind == TypeFactor(p.kind)
    ensures InWidgetRange(p) ==>
      && 0.02 <= r.surface <= 40.0
      && 0.1 <= r.floors <= 10.0
      && 0.0 <= r.age <= 3.0
      && 0.0 <= r.score <= 1.98
      && 0.6 <= r.kind <= 1.5
  {
    ImpactFactors(
      p.gfa as real / 50000.0,
      p.floors as real / 10.0,
      p.age as real / 50.0,
      (100 - p.score) as real / 50.0,
      TypeFactor(p.kind))
  }

  /** The chart's bars determine the estimate: each factor of the estimate is
      an affine function of one bar, and the type bar is the type factor
      itself. */
  lemma EnergyFromImpactFactors(p: Profile)
    ensures var i := ImpactFactorsOf(p);
      PredictEnergy(p)
        == 2500000.0 * i.surface * (0.98 + 0.2 * i.floors) * (1.0 + 0.15 * i.age)
           * (1.0 + 0.5 * i.score) * i.kind
  {
    var i := ImpactFactorsOf(p);
    assert BaseConsumption(p.gfa) == 2500000.0 * i.surface;
    assert FloorFactor(p.floors) == 0.98 + 0.2 * i.floors;
    assert AgeFactor(p.age) == 1.0 + 0.15 * i.age;
    assert EnergyStarFactor(p.score) == 1.0 + 0.5 * i.score;
  }

  /** The savable share shown beside the CO2 figure is 25 times the score bar
      of the impact chart. */
  lemma SavableShareMatchesScoreBar(p: Profile)
    requires p.score < 75
    ensures Co2DeltaOf(p.score) == Savable(25.0 * ImpactFactorsOf(p).score)
  {
  }
}
