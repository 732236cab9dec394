/** The attributes of a building that the dashboard's sidebar collects
    (app.py, lines 101-147), and the value ranges its widgets enforce. */
module Profiles {

  /** One building as entered in the sidebar. The four numeric inputs are
      integers (a `number_input` and three sliders with integer bounds);
      the building type is kept as the raw string the select box yields,
      so that lookups with a default behave as in the dashboard for any
      string. */
  datatype Profile = Profile(
    gfa: int,      // gross floor area, square feet
    floors: int,   // number of floors
    age: int,      // age of the building, years
    score: int,    // ENERGY STAR score
    kind: string   // building type label
  )

  /** The bounds of the four numeric widgets: floor area 1,000 to 2,000,000,
      floors 1 to 100, age 0 to 150, ENERGY STAR score 1 to 100. */
  predicate InWidgetRange(p: Profile) {
    && 1000 <= p.gfa <= 2000000
    && 1 <= p.floors <= 100
    && 0 <= p.age <= 150
    && 1 <= p.score <= 100
  }

  /** The nine options of the building-type select box, in display order. */
  datatype BuildingType =
    | OfficeSmallMid
    | OfficeLarge
    | Hotel
    | RetailStore
    | Warehouse
    | K12School
    | University
    | Hospital
    | Other

  /** The label the select box shows (and returns) for each option. */
  function Label(t: BuildingType): string {
    match t
    case OfficeSmallMid => "Office (Small/Mid)"
    case OfficeLarge => "Office (Large)"
    case Hotel => "Hotel"
    case RetailStore => "Retail Store"
    case Warehouse => "Warehouse"
    case K12School => "K-12 School"
    case University => "University"
    case Hospital => "Hospital"
    case Other => "Other"
  }

  /** Distinct options have distinct labels, so a label identifies its option. */
  lemma LabelInjective(s: BuildingType, t: BuildingType)
    ensures Label(s) == Label(t) <==> s == t
  {
  }
}
