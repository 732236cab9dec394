# Seattle building energy and CO2 estimator — Dafny model

The dashboard estimates a non-residential building's annual energy consumption
(kBtu) and CO2 emissions (tonnes) from five attributes typed into its sidebar:
gross floor area, number of floors, age, ENERGY STAR score and building type.
It then shows tree and car equivalents of the emissions, a bar chart of five
"impact factors", a label on the CO2 figure and a list of canned
recommendations. This project models the arithmetic and the rules that sit
between the widget calls of `main()` in `app.py`, and proves what they promise.

Modules, one per component of that logic:

- `Profiles` (`profiles.dfy`): the building as entered (`Profile`), the widget
  ranges (`InWidgetRange`), and the nine options of the type select box
  (`BuildingType`, `Label`).
- `Heuristic` (`heuristic.dfy`): the type-factor table and its lookup with a
  default of 1.0, the floor, age and ENERGY STAR factors, and the product that
  is the energy estimate; positivity and monotonicity of the estimate.
- `Derived` (`derived.dfy`): CO2 from energy, trees and cars from CO2, the
  label next to the CO2 figure, and the five impact factors.
- `Recommendations` (`recommendations.dfy`): the four threshold checks and the
  default message; a function giving the list, a method that builds it as the
  dashboard does (an empty list, conditional appends, a final emptiness check)
  and is proved equal to that function, and an exact characterisation of the
  list.

Floating-point numbers are modelled as Dafny `real`s and the widget inputs as
`int`s (the four numeric widgets have integer bounds and steps). Python's `/`
on integers is true division; it is modelled as real division. The building
type stays a `string`, so the dictionary lookup's default applies to any
string, not only to the nine options.

What `app.py` itself does decides the scope:

- `load_model` (app.py:40-83) is defined but `main()` never calls it, so every
  estimate is the heuristic one (app.py:157-178).
- The ENERGY STAR score comes from an integer slider (app.py:126-132).
- The recommendation rules (app.py:267-282) are modelled.

## Model

| member | source | states |
|---|---|---|
| `Profiles.LabelInjective` | app.py:137-145 | two select-box options have the same label exactly when they are the same option |
| `Heuristic.TypeFactor` | app.py:165-176 | the looked-up factor, default included, lies between 0.6 and 1.5 for every string |
| `Heuristic.TypeFactorOfLabel` | app.py:165-176 | for each of the nine labels the lookup returns exactly that type's listed factor |
| `Heuristic.TypeFactorDefault` | app.py:176 | any string that is none of the nine labels gets the default 1.0 |
| `Heuristic.HospitalFactorIsMaximal` | app.py:165-176 | no string gets a larger factor than "Hospital", and only "Hospital" gets 1.5 |
| `Heuristic.BaseConsumption` | app.py:157 | the base consumption is at least 50,000 kBtu from the smallest allowed floor area on |
| `Heuristic.FloorFactor` | app.py:160 | on the widget range the floor factor lies between 1.0 and 2.98 |
| `Heuristic.AgeFactor` | app.py:161 | on the widget range the age factor lies between 1.0 and 1.45 |
| `Heuristic.EnergyStarFactor` | app.py:162 | on the widget range the score factor lies between 1.0 and 1.99, and is 1.5 at score 50 |
| `Heuristic.Scaled` | app.py:178 | the product of the base consumption, the three factors and a type factor is positive on the widget range whenever the type factor is |
| `Heuristic.DefaultEstimate` | app.py:101-178 | the sidebar's default inputs (50,000 sq ft, 5 floors, 30 years, score 50, the first type option) lie in the widget ranges and are estimated at 3,973,050 kBtu |
| `Heuristic.PredictEnergy` | app.py:157-178 | the estimate is strictly positive for every profile the widgets admit |
| `Heuristic.EnergyMonotone` | app.py:157-178 | more area, floors or age, a lower score or a heavier type factor never lowers the estimate, and raises it exactly when one of them differs; so the estimate is non-decreasing in area, floors and age and non-increasing in the score |
| `Heuristic.HotelExceedsWarehouse` | app.py:168-178 | with the other inputs equal, a hotel gets strictly more energy than a warehouse |
| `Heuristic.HospitalIsMaximal` | app.py:165-178 | with the other inputs equal, a hospital gets at least as much energy as any type, and the same amount only if the type is "Hospital" |
| `Derived.Co2` | app.py:217-218 | the emissions times 10,000 give back the energy |
| `Derived.Trees` | app.py:230 | the tree equivalent divided by 45 gives back the emissions |
| `Derived.Cars` | app.py:231 | the car equivalent times 4.6 gives back the emissions |
| `Derived.EmissionsOf` | app.py:217-231 | the CO2 column's values: CO2 is energy times 0.0001, trees are CO2 times 45, cars times 4.6 are CO2, and all are positive on the widget range |
| `Derived.EquivalentsAreLinear` | app.py:217-231 | trees are 0.0045 per kBtu, cars one per 46,000 kBtu, and there are 207 trees per car |
| `Derived.EmissionsMonotone` | app.py:217-231 | the emissions and both equivalents are monotone in the inputs exactly as the energy estimate is |
| `Derived.Co2DeltaOf` | app.py:223 | the label is "Excellent!" exactly when the score is at least 75; otherwise the savable share exceeds 12.5 percent and is at most 49.5 percent on the widget range |
| `Derived.ImpactFactorsOf` | app.py:244-250 | the type bar is the very factor used in the estimate, and on the widget range every bar lies in its stated bounds |
| `Derived.EnergyFromImpactFactors` | app.py:244-250 | the estimate is 2,500,000 × surface bar × (0.98 + 0.2 × floors bar) × (1 + 0.15 × age bar) × (1 + 0.5 × score bar) × type bar |
| `Derived.SavableShareMatchesScoreBar` | app.py:223 | below a score of 75 the savable share is 25 times the score bar of the impact chart |
| `Recommendations.Text` | app.py:270-282 | each message's text opens with its own symbol (⚠, 🏗, 📊, 🔄, ✅), the string being the one the dashboard appends |
| `Recommendations.TextInjective` | app.py:270-282 | two messages have the same text exactly when they are the same message |
| `Recommendations.Fires` | app.py:269-278 | a firing message is always one of the four checks, never the default |
| `Recommendations.NoCheckFires` | app.py:281 | the default's condition (score at least 50, age at most 50, area at most 100,000, neither hotel nor hospital) holds exactly when none of the four checks fires |
| `Recommendations.NoCheckFiresPointwise` | app.py:269-281 | the same, stated between the thresholds and the checks one by one |
| `Recommendations.Fired` | app.py:269-279 | the messages whose checks fire, each exactly when it fires, in the checks' order |
| `Recommendations.FiredChecks` | app.py:269-279 | running the four checks gives the low-score, old-building, large-building and intensive-use contributions in that order |
| `Recommendations.RecommendationsOf` | app.py:267-282 | the list has between one and four entries, and when the default is in it, it is the only entry |
| `Recommendations.RecommendationsCharacterised` | app.py:267-282 | each check's message appears exactly when its check fires, the default exactly when none fires, in the checks' order without repeats |
| `Recommendations.CharacterisationIsExact` | app.py:267-282 | a list meets that characterisation if and only if it is the dashboard's list |
| `Recommendations.BuildRecommendations` | app.py:267-282 | appending each firing check's message in order, then the default to a still-empty list, yields exactly the dashboard's list |
| `Recommendations.ThresholdsAreStrict` | app.py:269-282 | a score of 50, an age of 50 and an area of 100,000 trigger nothing: an office with them gets only the default |
| `Recommendations.LowScoreAlone` | app.py:267-282 | score 30, age 20, area 50,000, office: exactly the low-score message |
| `Recommendations.GoodScoreAlone` | app.py:267-282 | score 80, age 20, area 50,000, office: exactly the default message |
| `Recommendations.EveryCheckFires` | app.py:267-282 | score 30, age 60, area 150,000, hotel: all four check messages, in order |

## Left out

- Streamlit widgets, page configuration, metric display, markdown and the HTML
  footer (app.py:14-19, 89-147, 181-186, 233-237, 284-295): presentation only.
  The widgets' bounds survive as `InWidgetRange`; the select box's options as
  `BuildingType`.
- The energy metric's delta text (app.py:184) and the CO2 metric's delta colour
  (app.py:224): display styling; the CO2 delta's choice and value (app.py:223)
  are modelled.
- The Plotly gauge and bar chart (app.py:189-210, 252-261): library calls; the
  bar values themselves are modelled.
- `load_data` and `load_model` (app.py:25-83): file checks, CSV reading, model
  training and loading, caching; all I/O and foreign libraries, and never
  called from `main()`.
- The feature-vector builder that tests/test_app.py imports
  (`prepare_features`): it is not part of the application source, so there is
  nothing to model; the tests themselves need model files on disk.
- Floating-point rounding and number formatting (app.py:183-184, 222-223,
  235-237): the model uses exact reals, so no bit-exact float equalities are
  claimed.
- Rendering each message as Markdown (app.py:283-284): `Recommendations.Text`
  gives the string for each message; the model reasons about the list of
  messages, which `TextInjective` shows carries the same information.
