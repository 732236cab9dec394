/** The heuristic energy estimate of the dashboard (app.py, lines 157-178):
    a base consumption of 50 kBtu per square foot, scaled by a floor factor,
    an age factor, an ENERGY STAR factor and a per-type factor. */
module Heuristic {
  import opened Profiles

  /** Average consumption per square foot, kBtu. */
  const KBtuPerSquareFoot: real := 50.0

  /** The per-type multipliers; a type missing from this table gets 1.0. */
  const TypeFactors: map<string, real> := map[
    "Office (Small/Mid)" := 0.9,
    "Office (Large)" := 1.1,
    "Hotel" := 1.3,
    "Retail Store" := 0.85,
    "Warehouse" := 0.6,
    "K-12 School" := 0.8,
    "University" := 1.0,
    "Hospital" := 1.5,
    "Other" := 1.0
  ]

  /** The per-type multipliers written a second time, per select-box option
      rather than per string key: the reference that TypeFactorOfLabel checks
      the dictionary against. */
  function Factor(t: BuildingType): real {
    match t
    case OfficeSmallMid => 0.9
    case OfficeLarge => 1.1
    case Hotel => 1.3
    case RetailStore => 0.85
    case Warehouse => 0.6
    case K12School => 0.8
    case University => 1.0
    case Hospital => 1.5
    case Other => 1.0
  }

  /** Dictionary lookup with a default of 1.0. Every multiplier, whatever the
      string, lies between the warehouse's 0.6 and the hospital's 1.5. */
  function TypeFactor(kind: string): (f: real)
    ensures 0.6 <= f <= 1.5
  {
    if kind in TypeFactors then TypeFactors[kind] else 1.0
  }

  /** The base consumption, floor area times 50. */
  function BaseConsumption(gfa: int): (b: real)
    ensures gfa >= 1000 ==> b >= 50000.0
  {
    gfa as real * KBtuPerSquareFoot
  }

  /** Two percent more per floor above the first. */
  function FloorFactor(floors: int): (f: real)
    ensures floors >= 1 ==> f >= 1.0
    ensures floors <= 100 ==> f <= 2.98
  {
    1.0 + (floors - 1) as real * 0.02
  }

  /** Thirty percent more per century of age. */
  function AgeFactor(age: int): (f: real)
    ensures age >= 0 ==> f >= 1.0
    ensures age <= 150 ==> f <= 1.45
  {
    1.0 + (age as real / 100.0) * 0.3
  }

  /** Falls from 1.99 (score 1) to 1.0 (score 100); 1.5 at the average score 50. */
  function EnergyStarFactor(score: int): (f: real)
    ensures score <= 100 ==> f >= 1.0
    ensures score >= 1 ==> f <= 1.99
    ensures score == 50 ==> f == 1.5
  {
    2.0 - score as real / 100.0
  }

  /** The predicted annual consumption in kBtu: strictly positive for every
      profile the widgets can produce. */
  function PredictEnergy(p: Profile): (e: real)
    ensures InWidgetRange(p) ==> e > 0.0
  {
    Scaled(p, TypeFactor(p.kind))
  }

  /** The base consumption times the floor, age and ENERGY STAR factors and
      a given type factor; positive whenever the type factor is. */
  function Scaled(p: Profile, tf: real): (e: real)
    ensures InWidgetRange(p) && tf > 0.0 ==> e > 0.0
  {
    var base := BaseConsumption(p.gfa);
    var ff := FloorFactor(p.floors);
    var af := AgeFactor(p.age);
    var ef := EnergyStarFactor(p.score);
    PositiveProduct(base, ff, af, ef, tf);
    base * ff * af * ef * tf
  }

  /** Multiplying two positive quantities is monotone in both, strictly so
      exactly when one of them grows. */
  lemma MulMonotone(a: real, b: real, c: real, d: real)
    requires 0.0 < a <= b && 0.0 < c <= d
    ensures 0.0 < a * c <= b * d
    ensures a * c < b * d <==> a < b || c < d
  {
    var ac, bc, bd := a * c, b * c, b * d;
    assert 0.0 < ac;
    assert bc - ac == (b - a) * c;
    assert bd - bc == b * (d - c);
    assert (b - a) * c >= 0.0 && b * (d - c) >= 0.0;
    if a < b {
      assert (b - a) * c > 0.0;
      assert ac < bd;
    } else if c < d {
      assert b * (d - c) > 0.0;
      assert ac < bd;
    } else {
      assert ac == bd;
    }
  }

  /** A product of five positive factors is positive. */
  lemma PositiveProduct(a: real, b: real, c: real, d: real, e: real)
    ensures a > 0.0 && b > 0.0 && c > 0.0 && d > 0.0 && e > 0.0 ==> a * b * c * d * e > 0.0
  {
    if a > 0.0 && b > 0.0 && c > 0.0 && d > 0.0 && e > 0.0 {
      assert a * b > 0.0;
      assert a * b * c > 0.0;
      assert a * b * c * d > 0.0;
    }
  }

  /** The same for a product of five positive factors, as in the estimate. */
  lemma ProductMonotone(a1: real, a2: real, a3: real, a4: real, a5: real,
                        b1: real, b2: real, b3: real, b4: real, b5: real)
    requires 0.0 < a1 <= b1 && 0.0 < a2 <= b2 && 0.0 < a3 <= b3
    requires 0.0 < a4 <= b4 && 0.0 < a5 <= b5
    ensures 0.0 < a1 * a2 * a3 * a4 * a5 <= b1 * b2 * b3 * b4 * b5
    ensures a1 * a2 * a3 * a4 * a5 < b1 * b2 * b3 * b4 * b5
            <==> a1 < b1 || a2 < b2 || a3 < b3 || a4 < b4 || a5 < b5
  {
    MulMonotone(a1, b1, a2, b2);
    MulMonotone(a1 * a2, b1 * b2, a3, b3);
    MulMonotone(a1 * a2 * a3, b1 * b2 * b3, a4, b4);
    MulMonotone(a1 * a2 * a3 * a4, b1 * b2 * b3 * b4, a5, b5);
  }

  /** Holding nothing fixed: a profile that is no smaller in floor area,
      floors and age, no better in ENERGY STAR score and no lighter in type
      factor gets no less energy; it gets strictly more exactly when it
      differs in one of these. With the other inputs equal this gives each
      one-input monotonicity: non-decreasing in floor area, floors and age,
      non-increasing in the score (and strictly so). */
  lemma EnergyMonotone(p: Profile, q: Profile)
    requires InWidgetRange(p) && InWidgetRange(q)
    requires p.gfa <= q.gfa && p.floors <= q.floors && p.age <= q.age
    requires p.score >= q.score
    requires TypeFactor(p.kind) <= TypeFactor(q.kind)
    ensures PredictEnergy(p) <= PredictEnergy(q)
    ensures PredictEnergy(p) < PredictEnergy(q)
            <==> (|| p.gfa < q.gfa || p.floors < q.floors || p.age < q.age
                  || p.score > q.score || TypeFactor(p.kind) < TypeFactor(q.kind))
  {
    ScaledMonotone(p, q, TypeFactor(p.kind), TypeFactor(q.kind));
  }

  /** The monotonicity of the product, for any positive type factors. */
  lemma ScaledMonotone(p: Profile, q: Profile, pt: real, qt: real)
    requires InWidgetRange(p) && InWidgetRange(q)
    requires p.gfa <= q.gfa && p.floors <= q.floors && p.age <= q.age
    requires p.score >= q.score
    requires 0.0 < pt <= qt
    ensures Scaled(p, pt) <= Scaled(q, qt)
    ensures Scaled(p, pt) < Scaled(q, qt)
            <==> (|| p.gfa < q.gfa || p.floors < q.floors || p.age < q.age
                  || p.score > q.score || pt < qt)
  {
    var pb, pf, pa, ps := BaseConsumption(p.gfa), FloorFactor(p.floors), AgeFactor(p.age),
                          EnergyStarFactor(p.score);
    var qb, qf, qa, qs := BaseConsumption(q.gfa), FloorFactor(q.floors), AgeFactor(q.age),
                          EnergyStarFactor(q.score);
    assert pb < qb <==> p.gfa < q.gfa;
    assert pf < qf <==> p.floors < q.floors;
    assert pa < qa <==> p.age < q.age;
    assert ps < qs <==> p.score > q.score;
    assert Scaled(p, pt) == pb * pf * pa * ps * pt;
    assert Scaled(q, qt) == qb * qf * qa * qs * qt;
    ProductMonotone(pb, pf, pa, ps, pt, qb, qf, qa, qs, qt);
  }

  /** The lookup agrees with the reference table on every select-box label. */
  lemma TypeFactorOfLabel(t: BuildingType)
    ensures TypeFactor(Label(t)) == Factor(t)
  {
  }

  /** Any string that is not one of the nine labels gets the default 1.0. */
  lemma TypeFactorDefault(kind: string)
    requires forall t: BuildingType :: Label(t) != kind
    ensures TypeFactor(kind) == 1.0
  {
    assert Label(OfficeSmallMid) != kind && Label(OfficeLarge) != kind;
    assert Label(Hotel) != kind && Label(RetailStore) != kind;
    assert Label(Warehouse) != kind && Label(K12School) != kind;
    assert Label(University) != kind && Label(Hospital) != kind;
    assert Label(Other) != kind;
    assert kind !in TypeFactors;
  }

  /** "Hospital" is the heaviest type, and the only one with factor 1.5. */
  lemma HospitalFactorIsMaximal(kind: string)
    ensures TypeFactor(kind) <= TypeFactor("Hospital")
    ensures TypeFactor(kind) == TypeFactor("Hospital") <==> kind == "Hospital"
  {
  }

  /** With all other inputs equal, a hotel gets strictly more energy than a
      warehouse. */
  lemma HotelExceedsWarehouse(p: Profile)
    requires InWidgetRange(p)
    ensures PredictEnergy(p.(kind := "Warehouse")) < PredictEnergy(p.(kind := "Hotel"))
  {
    EnergyMonotone(p.(kind := "Warehouse"), p.(kind := "Hotel"));
  }

  /** With all other inputs equal, a hospital gets the most energy of any
      type, and strictly more than every other type. */
  lemma HospitalIsMaximal(p: Profile)
    requires InWidgetRange(p)
    ensures PredictEnergy(p) <= PredictEnergy(p.(kind := "Hospital"))
    ensures PredictEnergy(p) == PredictEnergy(p.(kind := "Hospital")) <==> p.kind == "Hospital"
  {
    HospitalFactorIsMaximal(p.kind);
    EnergyMonotone(p, p.(kind := "Hospital"));
  }

  /** The sidebar's default inputs (50,000 square feet, 5 floors, 30 years,
      score 50, the first type option) are in range and give
      2,500,000 × 1.08 × 1.09 × 1.5 × 0.9 = 3,973,050 kBtu. */
  lemma DefaultEstimate()
    ensures InWidgetRange(Profile(50000, 5, 30, 50, Label(OfficeSmallMid)))
    ensures PredictEnergy(Profile(50000, 5, 30, 50, Label(OfficeSmallMid))) == 3973050.0
  {
    TypeFactorOfLabel(OfficeSmallMid);
  }
}
