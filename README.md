# Warehouse capacity calculator — a verified model

This project models the calculation engine of a warehouse capacity calculator
for high-density (HD) pallet racking and mezzanines, together with the
bay-placement arithmetic of its top-down floor plan.

From a warehouse configuration the engine:

- takes the floor area, from length and width or else from the area typed in;
- splits it into racking (a percentage of the floor) and staging, and splits
  the racking into mezzanine (a percentage of the racking) and HD racks;
- sizes one bay (footprint, stacked height, volume per level);
- counts bays, either by laying out whole modules or by an area-based
  (empirical) estimate. A module is two bays back to back, a small gap and an
  aisle; rows are one bay deep plus an aisle;
- converts rack and mezzanine volume from cubic feet to CBM (1 CBM = 35.3147
  cu ft) and adds the existing baseline capacity;
- estimates pallet positions, with at least two pallets per level unless an
  override is given;
- derives floor area per CBM, the improvement factor over the baseline and the
  extra CBM;
- produces a bill of quantities (BoQ) with safety margins, each quantity
  rounded up;
- validates the result into errors and warnings.

The floor-plan generator scales the warehouse into an 800 × 600 drawing with
40 units of padding and centres it. It then places the bays row by row, two
per whole module.

Modules:

- `Wrappers` — `Option`, for the source's `null`s.
- `Arith` — ceiling, `Math.min`/`Math.max`, and lemmas about floors of
  quotients and monotone products.
- `Calculations` — the engine of `lib/calculations.js`.
- `Layout` — `generateLayout` of `components/TopDownVisualization.js`.
- `ReferenceCases` — the worked examples of the project's test suite, restated
  as lemmas and scenario methods about the model.

Numbers are `real` (exact rationals). Counts are `int`. `Math.floor` is
`.Floor` and `Math.ceil` is `Arith.Ceil`. An absent length, width, area or
clear height is `0.0`. The source treats `undefined` and `0` alike in every
branch (`x && …`, `x || 0`), and the page that calls it passes `0` for empty
fields. `palletsPerLevelOverride` is an `Option<int>`, and the optional cross
aisle of the module method is an `Option<real>`.

Code that updates variables step by step is written as methods with loops or
sequential assignments, each proved against a specification. These are
`ValidateInputs`, `CalculatePalletPositions`, `CalculateWarehouseCapacity` and
the nested loops of `GenerateLayout`. The pure formulas of `Calculations` and `Layout` are functions with
named results, and their properties are lemmas.

## Model

| member | source | states |
|---|---|---|
| Calculations.CalculateArea | lib/calculations.js:15-23 | with both dimensions positive the area is length × width, otherwise it is the supplied area (0 when absent) |
| Calculations.DimensionsOverrideArea | lib/calculations.js:18-20 | with both dimensions positive the typed-in area has no influence on the result |
| Calculations.AreaWithoutDimensions | lib/calculations.js:18-22 | without two positive dimensions, changing the dimensions (still not both positive) leaves the area unchanged |
| Calculations.CalculateAreas | lib/calculations.js:28-40 | racking is percentRacking % of the total, mezzanine is mezzPercent % of racking, HD + mezzanine = racking, racking + staging = total |
| Calculations.AreaSplitBounds | lib/calculations.js:28-40 | with percentages in [0, 100] and a non-negative total: 0 ≤ mezzanine ≤ racking ≤ total, HD and staging are non-negative, and HD + mezzanine + staging = total |
| Calculations.OverAllocationMakesStagingNegative | lib/calculations.js:28-40 | with more than 100 % racking, staging is negative and racking exceeds the total (staging is not clamped) |
| Calculations.CalculateBayDimensions | lib/calculations.js:45-54 | footprint = length × width, rack height = level height × levels, volume per level = footprint × level height |
| Calculations.CalculateModule | lib/calculations.js:59-62 | a module is two bay lengths, the small gap and one aisle; with non-negative gap and aisle it is at least two bay lengths long |
| Calculations.RowPitch | lib/calculations.js:76-77 | the row pitch is the bay width plus the cross aisle when one is given, plus the main aisle otherwise |
| Calculations.CalculateBayCountModule | lib/calculations.js:67-89 | no result exactly when a dimension is absent; otherwise module length = 2 × bay length + gap + aisle, row pitch = bay width + cross aisle (defaulting to the aisle), bays per row is even, total = bays per row × rows, and the modules and rows are exactly the whole ones that fit |
| Calculations.ModuleCountNonNegative | lib/calculations.js:67-89 | on a real floor with positive module length and row pitch, bays per row, rows and total bays are non-negative |
| Calculations.ModuleCountAntitoneInAisles | lib/calculations.js:59-89 | a narrower main aisle with a row pitch no larger never yields fewer bays (the VNA configuration counts at least as many bays) |
| Calculations.CalculateBayCountEmpirical | lib/calculations.js:94-102 | effective area per bay = footprint × overhead multiplier, and the count is the number of whole effective bay areas that fit in the HD area |
| Calculations.EmpiricalCountAntitoneInOverhead | lib/calculations.js:94-102 | a smaller overhead multiplier never lowers the empirical count, which is non-negative |
| Calculations.CalculateBayCBM | lib/calculations.js:107-117 | volume per bay = volume per level × levels, and the CBM figure times 35.3147 gives the cubic feet |
| Calculations.CalculateRackCBM | lib/calculations.js:122-124 | rack capacity is non-negative for non-negative bay counts and bay volumes |
| Calculations.RackVolumeInCubicFeet | lib/calculations.js:107-124 | rack CBM × 35.3147 = bays × bay length × bay width × total rack height |
| Calculations.CalculateMezzanineCBM | lib/calculations.js:129-137 | cubic feet = area × clear height, CBM × 35.3147 = cubic feet, and no area gives no capacity |
| Calculations.CalculatePalletPositions | lib/calculations.js:142-157 | a positive override is used as given; otherwise the pallets per level are the whole pallets that fit in the footprint, but never fewer than 2; total = bays × pallets per level × levels |
| Calculations.PalletEstimateIsUnique | lib/calculations.js:142-157 | with a positive pallet footprint the pallet promise determines the result |
| Calculations.CalculateDerivedMetrics | lib/calculations.js:162-172 | sqft per CBM × total = area, factor × baseline = total, extra + baseline = total, and with a positive baseline the factor exceeds 1 exactly when extra CBM is positive |
| Calculations.CalculateBoQ | lib/calculations.js:228-278 | each quantity is the ceiling of its raw amount times its margin: uprights (bays + 1) × 1.05, beams and decking bays × levels × 1.08 and × 1.10, anchors 4 per upright × 1.05, protectors 30 % of uprights; row spacers = 2 × bays |
| Calculations.BoQCoversRawQuantities | lib/calculations.js:228-250 | margins only add material: every quantity covers its raw requirement, and protectors lie between 0 and the uprights |
| Calculations.FiringErrorsReported | lib/calculations.js:177-223 | the list of the errors whose rules fire meets the error promise |
| Calculations.FiringWarningsReported | lib/calculations.js:177-223 | the list of the warnings whose rules fire meets the warning promise |
| Calculations.ValidateInputs | lib/calculations.js:177-223 | each finding is reported exactly when its rule fires, in rule order. Errors: rack taller than a given clear height (field "levels"), racking area above the total ("percentRacking"). Warnings: fewer than 5 bays ("bayCount"), VNA aisle under 7 ft ("aisleWidth"), given mezzanine clear height under 6 ft ("mezzClearHeight") |
| Calculations.InRuleOrderUnique | lib/calculations.js:177-223 | two lists in rule order holding the same findings are equal |
| Calculations.ReportsExactly | lib/calculations.js:177-223 | the validation promise fixes both lists: they are exactly the firing errors and the firing warnings |
| Calculations.ReportsIsDeterministic | lib/calculations.js:177-223 | two validations of the same results are equal |
| Calculations.CalculateWarehouseCapacity | lib/calculations.js:283-387 | the areas and bay geometry of the configuration; the module method when it is requested and both dimensions are given, the empirical method otherwise; rack and mezzanine CBM; total = baseline + rack + mezzanine, zero mezzanine capacity without a mezzanine; the pallet promise, derived metrics and BoQ of the selected bay count; the validation promise for the assembled results |
| Layout.FitToViewport | components/TopDownVisualization.js:63-78 | scale = min of the two axis scales; the scaled warehouse is positive and fits 720 × 520; one axis fills its side; the drawing is centred with offsets of at least the padding |
| Layout.Geometry.ModuleLength | components/TopDownVisualization.js:81 | the floor plan's module length is the engine's module length (two bays, the small gap and the main aisle) |
| Layout.Geometry.RowPitch | components/TopDownVisualization.js:82 | the floor plan's row pitch is the engine's row pitch with the main aisle as the cross aisle |
| Layout.BayAt | components/TopDownVisualization.js:89-110 | the first bay of module j in row r is at x = j × module length, the second at that x plus bay length plus small gap, both at y = r × row pitch, bay length wide and bay width deep; the second bay ends one main aisle before module j + 1 starts |
| Layout.RowBaysLength | components/TopDownVisualization.js:92-110 | a row of m modules has 2m bays |
| Layout.RowBaysAt | components/TopDownVisualization.js:92-110 | bay i of a row is the first or second bay (by parity) of module i / 2 |
| Layout.GridLength | components/TopDownVisualization.js:89-111 | a grid of r rows of m modules has 2mr bays |
| Layout.GridAt | components/TopDownVisualization.js:89-111 | row-major order: the first or second bay of module j in row r is at index 2mr + 2j (+1) |
| Layout.LastRowAt | components/TopDownVisualization.js:89-111 | the last row's bays follow all earlier rows |
| Layout.RowOnFloor | components/TopDownVisualization.js:90-110 | a row's bays lie on the floor when its modules fit the length and the row fits the width |
| Layout.GridOnFloor | components/TopDownVisualization.js:89-111 | all bays lie on the floor when the modules fit the length and the rows fit the width |
| Layout.WholeGridOnFloor | components/TopDownVisualization.js:81-111 | the grid of whole modules and whole rows has 2 × modules × rows bays, and with non-negative rack dimensions every bay lies on the floor |
| Layout.GenerateLayout | components/TopDownVisualization.js:63-125 | the viewport is the fitted one; bays per row, rows and the bay count agree with the engine's module method (without a cross aisle); the bays are the row-major grid; with non-negative rack dimensions every bay lies on the floor |
| ReferenceCases.ReferenceArea | __tests__/calculations.test.js:26-45 | 300 × 360 gives 108000 and overrides a typed-in 100000; without dimensions the area 108000 is used |
| ReferenceCases.ReferenceAreaSplit | __tests__/calculations.test.js:48-56 | 108000 at 60 % / 30 % splits into 64800 racking, 19440 mezzanine, 45360 HD, 43200 staging |
| ReferenceCases.ReferenceModuleLengths | __tests__/calculations.test.js:91-104 | 9.5 ft bays with a 1.5 ft gap give a 30.5 ft module with 10 ft aisles and 26.5 ft with 6 ft aisles |
| ReferenceCases.ReferenceModuleCount | __tests__/calculations.test.js:108-121 | standard aisles: 18 bays per row, 26 rows, 468 bays |
| ReferenceCases.ReferenceVnaModuleCount | __tests__/calculations.test.js:123-137 | 6 ft aisles: 22 bays per row, 37 rows, 814 bays |
| ReferenceCases.ReferenceEmpiricalCounts | __tests__/calculations.test.js:140-168 | 45360 sq ft gives 909 bays at multiplier 1.5 and 1136 at 1.2 |
| ReferenceCases.ReferenceBayVolume | __tests__/calculations.test.js:171-183 | 199.5 cu ft per level, 1396.5 per bay, between 39.544 and 39.545 CBM |
| ReferenceCases.ReferenceMezzanine | __tests__/calculations.test.js:187-200 | 139968 cu ft, between 3963.44 and 3963.45 CBM |
| ReferenceCases.ReferencePallets | __tests__/calculations.test.js:219-241 | 2 pallets per level and 6552 positions; with override 3, 9828 positions |
| ReferenceCases.ReferenceDerivedMetrics | __tests__/calculations.test.js:244-260 | 2.7 sq ft per CBM, factor 16/3, 32500 extra CBM |
| ReferenceCases.ReferenceBoQ | __tests__/calculations.test.js:263-283 | 493 uprights, 3539 beam pairs, 3604 decking panels, 2071 anchors, 936 row spacers, 148 protectors |
| ReferenceCases.DefaultScenario | __tests__/calculations.test.js:287-331 | the default configuration: 468 bays, 6552 pallet positions, no errors or warnings, rack, mezzanine and total CBM to two decimals |
| ReferenceCases.VnaScenario | __tests__/calculations.test.js:333-367 | narrow aisles: 814 bays, exactly the VNA aisle warning, no errors |
| ReferenceCases.LowRoofScenario | __tests__/calculations.test.js:369-398 | a 30 ft roof over 42 ft racks: exactly one error, on field "levels" |
| ReferenceCases.NoMezzanineScenario | __tests__/calculations.test.js:403-430 | 0 % mezzanine: no mezzanine area and no mezzanine CBM |
| ReferenceCases.SmallScenario | __tests__/calculations.test.js:433-464 | a 50 × 50 ft warehouse: 6 bays and no findings |
| ReferenceCases.DefaultFloorPlan | components/TopDownVisualization.js:63-125 | the default floor plan: 18 bays in each of 26 rows, scale 520/360, every bay on the floor |

## Left out

- `formatNumber` and `exportToCSV` (lib/calculations.js:392-441): presentation and export. They compute nothing the engine uses.
- Message texts of the validation findings and descriptions of the BoQ items, including their `toFixed` formatting. This covers the upright description `levels × 6 ft`, which ignores the level height. A finding keeps the values its message quotes, and its field name.
- IEEE-754 floating point: the model computes on exact rationals. A floor or ceiling taken at a quotient or product that is an exact integer in rational arithmetic can differ by one in JavaScript. `NaN` and `Infinity` from a zero divisor are excluded by preconditions instead: `CalculateBayCountModule`, `CalculateBayCountEmpirical`, `CalculatePalletPositions`, `CalculateDerivedMetrics`, `CalculateWarehouseCapacity`.
- Non-numeric inputs and `undefined` fields: an absent dimension, area or clear height is modelled as 0, which every branch of the source treats the same way.
- `palletsPerLevelOverride` is modelled as an integer. The source accepts any positive number.
- `levels` is modelled as an integer, as the design describes it. The input page parses every numeric field with `parseFloat(…) || 0` (components/InputPanel.js:50), so a fractional number of levels reaches `calculateBoQ` and `calculatePalletPositions` unchanged in the source.
- The `results` object spreads the derived metrics and the pallet positions into its own fields (lib/calculations.js:366-380). The model keeps them as nested records (`derived`, `pallets`).
- Layout.GenerateLayout: models only the case where both dimensions are given and positive, with positive module length and row pitch. The estimate of missing dimensions from the area with a square root (components/TopDownVisualization.js:57-61) is not modelled: it has no exact rational counterpart. A zero module length or row pitch would give `Infinity` loop bounds in the source.
- Layout.FitToViewport: requires positive dimensions. With a zero dimension the source divides by zero.
- The rendering of the floor plan (SVG elements, legend, labels) and the other UI components.
- Behaviour the test suite expects but the engine does not have:
  - a six-argument `calculateAreas` with directly entered HD and mezzanine areas and clamped staging (__tests__/calculations.test.js:58-77);
  - a `mezzLevels` multiplier in `calculateMezzanineCBM` (__tests__/calculations.test.js:187-216).
  
  The engine takes three and two arguments respectively, and the model follows the engine.

## Test expectations the model contradicts

Exact arithmetic on the test suite's own inputs gives values outside the
tolerances of some of its assertions. The model follows the engine's formulas,
and `ReferenceCases` states the exact values:

- Default configuration, rack CBM: the suite expects 18507.5 within 0.5 (__tests__/calculations.test.js:317). The engine gives 468 × 1396.5 / 35.3147 ≈ 18506.80. The total CBM is ≈ 29970.25, not 29971 within 0.5 (line 323).
- Mezzanine: the suite expects 3963.55 within 0.05 (__tests__/calculations.test.js:198). The engine gives ≈ 3963.45.
- Small warehouse: the suite expects at least one warning for the 50 × 50 ft warehouse (__tests__/calculations.test.js:461). The module method counts 6 bays, the low-count rule fires only below 5, and no other rule applies, so the lists are empty (`ReferenceCases.SmallScenario`).
