# MPRIV fine estimator — a Dafny model

This project models the computational core of the MPRIV calculator. The calculator estimates the
administrative fine for a personal-data protection breach. The fine is `multaFinal = CDI · SDI`.

- CDI is the base exposure. It takes the business volume `VDN` and interpolates a rate between the
  lower and upper rate of the activity's severity tier ("leve" or "grave").
- SDI is the severity multiplier. It mixes three inputs:
  - the composite impact IED, built from four sub-scores: data types (TDP), affected population
    (TAV), breach nature (NDV) and vulnerable groups (TEV);
  - the intentionality points INT;
  - a fixed recidivism term RER.

Each sub-score is a PERT three-point estimate `(a + 4b + c) / 6`, scaled by its weight. A Monte Carlo
simulation perturbs the percentage and the three SDI inputs. It recomputes the fine on every
iteration, then reports the minimum, average, upper median and maximum, plus a 20-bin histogram.
The form helpers of the same component are modelled too:

- the checkbox lists;
- the vulnerable-groups switch;
- the count input with its clamp to the company's population;
- `slugify` and the unique-id loop used when the user adds a data-subject category.

Modules:

| file | module | models |
|---|---|---|
| `wrappers.dfy` | `Wrappers` | `Option` |
| `estimation.dfy` | `Estimation` | `pert` |
| `arith.dfy` | `Arith` | `Math.min` / `Math.max` and small real-arithmetic facts shared by the proofs |
| `catalog.dfy` | `Catalog` | `mprivData.ts`: `VDN`, the activities, the areas, the option tables; `Config` for the constants the component imports but the data file does not declare |
| `engine.dfy` | `Engine` | `calculateMPRIV`: the specification function `Mpriv` and the method `CalculateMPRIV` proved equal to it |
| `stats.dfy` | `Statistics` | sorting, min/max/average/median and the 20-bin histogram |
| `simulation.dfy` | `Simulation` | `runMonteCarloSimulation` |
| `form.dfy` | `Form` | toggle helpers, count clamp, `slugify`, `handleAddTitularCategory` |

Modelling choices:

- Numbers are exact `real`s.
- Randomness is injected:
  - every simulation iteration receives a `Draw` of four uniforms in [0, 1), standing for the four
    `Math.random()` calls;
  - the number of iterations is the number of draws.
- Several constants are imported by the component but not declared in the data file:
  - `WEIGHTS`, `IED_NORMALIZATION`, `RER_FIXED`, `TOTAL_TITULARES_EMPRESA`, `SDI_WEIGHTS`;
  - `titularCategories`, `vulnerableGroups`, `tiposDatosPersonales`, `naturalezaVulneracionOptions`.

  They are fields of a `Config` value. `ValidConfig` states what the model assumes about them: the
  weights and the normalisation are non-negative, the population is non-negative, and every triple
  lies in [0, 100].
- The activity catalog is a parameter `acts` of `Mpriv` and `CalculateMPRIV`. `Catalog.activities` is
  the catalog as declared, and `Catalog.ActivitiesValid` proves it satisfies `ValidActivities`.
- `calculateMPRIV` accumulates the TDP sums in a loop and reassigns its sub-scores. It is a `method`
  (`Engine.CalculateMPRIV`, with `SumWeightedParams` for the loop) proved equal to the function
  `Engine.Mpriv`. The properties are lemmas about `Mpriv`.
- The simulation loop is `Simulation.RunMonteCarloSimulation`, proved equal to `Simulation.Simulate`.
- The id loop of `handleAddTitularCategory` is `Form.FreshId`. Its contract is the first free
  candidate.
- React state setters are not modelled. Every helper returns the new value of the state it would
  set.

What the code computes, as modelled:

- The code applies no cap: `multaFinal` is `CDI · SDI` (`Engine.Results`).
- SDI is `2 · (w_IED · IED · 10 + w_INT · INT + w_RER · RER)`.
- The TAV tier uses the code's count bands [100, 1000], [1001, 10000] and [10001, 100000], gaps
  included (`Engine.TavTierAsWritten`). The gap-free `Engine.TavTier` is the corrected definition of
  the finding below, and the calculation does not use it.
- INT is not a weighted triple:
  - the component takes the option's `pert` triple when it has one, and its `value` otherwise;
  - no option in `intencionalidadOptions` carries a triple, so INT is the option's `value` (2, 4.5,
    6.5 or 9) divided by 10 (`Engine.IntPercentFallsBackToValue`).
- When all simulated fines are equal the bin width is 0, and every fine lands in the last, closed
  bin (`Statistics.HistogramDegenerate`).

## Model

| member | source | states |
|---|---|---|
| Estimation.Pert | react-app/src/components/MPRIVCalculator.tsx:78 | the estimate lies between the smallest and the largest of the three points |
| Estimation.PertOrdered | react-app/src/components/MPRIVCalculator.tsx:78 | for a <= b <= c the estimate lies in [a, c], strictly inside when a < c |
| Estimation.PertWithin | react-app/src/components/MPRIVCalculator.tsx:78 | three points in [lo, hi] give an estimate in [lo, hi] |
| Estimation.PertMonotone | react-app/src/components/MPRIVCalculator.tsx:78 | raising any point never lowers the estimate |
| Catalog.ActivitiesValid | react-app/src/data/mprivData.ts:19-140 | every activity of every area has its pdi in [0, 100] |
| Catalog.AllAreasWellFormed | react-app/src/data/mprivData.ts:19-140 | every area has exactly three activities, each with pdi in [0, 100] |
| Catalog.EveryAreaHasThreeActivities | react-app/src/data/mprivData.ts:19-140 | every area lists exactly three activities |
| Catalog.MarketingHasThree | react-app/src/data/mprivData.ts:20-39 | marketing has three activities with pdi in [0, 100] |
| Catalog.VentasHasThree | react-app/src/data/mprivData.ts:40-59 | ventas has three activities with pdi in [0, 100] |
| Catalog.RrhhHasThree | react-app/src/data/mprivData.ts:60-79 | rrhh has three activities with pdi in [0, 100] |
| Catalog.FinancieroHasThree | react-app/src/data/mprivData.ts:80-99 | financiero has three activities with pdi in [0, 100] |
| Catalog.LogisticaHasThree | react-app/src/data/mprivData.ts:100-119 | logistica has three activities with pdi in [0, 100] |
| Catalog.EcommerceHasThree | react-app/src/data/mprivData.ts:120-139 | ecommerce has three activities with pdi in [0, 100] |
| Catalog.ActivityAreasAreLabelledAreas | react-app/src/data/mprivData.ts:19-149 | the areas of the activity catalog are exactly the labelled areas |
| Catalog.IntencionalidadOptionsOrdered | react-app/src/data/mprivData.ts:174-195 | values 2 < 4.5 < 6.5 < 9, each in the range printed in its name, and no option has a triple |
| Catalog.ReincidenciaOptionsOrdered | react-app/src/data/mprivData.ts:197-218 | values 0 < 2 < 5 < 8.5, each in its labelled range |
| Catalog.ImpactoDerechosOptionsOrdered | react-app/src/data/mprivData.ts:151-172 | values 2 < 4.5 < 6.5 < 9, each in its labelled range |
| Engine.Exposure | react-app/src/components/MPRIVCalculator.tsx:94-99 | for pdi in [0, 100] CDI lies in [VDN · RDM_min, VDN · RDM_max] of the tier |
| Engine.ExposureInterpolates | react-app/src/components/MPRIVCalculator.tsx:94-99 | CDI is VDN · RDM_min at pdi 0, VDN · RDM_max at pdi 100, and never decreases with pdi |
| Engine.ExposureRanges | react-app/src/components/MPRIVCalculator.tsx:94-99 | grave exposure lies in [1,190,000, 1,700,000], leve exposure in [170,000, 1,190,000] |
| Engine.FindTipoFirstMatch | react-app/src/components/MPRIVCalculator.tsx:105-107 | `find` fails exactly when no entry has the id, and otherwise returns the first entry with it |
| Engine.SelectedTiposSpec | react-app/src/components/MPRIVCalculator.tsx:105-107 | the filtered selection is no longer than the ids, holds only catalog entries with selected ids, and is empty exactly when every id is unknown |
| Engine.Peso | react-app/src/components/MPRIVCalculator.tsx:116-118 | the sensitivity weight lies in [1, 4] |
| Engine.Accumulate | react-app/src/components/MPRIVCalculator.tsx:111-124 | the total weight is at least the number of selected types, so the average is defined |
| Engine.AccumulateWithin | react-app/src/components/MPRIVCalculator.tsx:111-124 | when point a (or b, or c) of every selected type lies in [lo, hi], the weighted sum of that point lies in [lo · weight, hi · weight] |
| Engine.AveragePointWithin | react-app/src/components/MPRIVCalculator.tsx:126-129 | dividing the weighted sum of a point by the total weight gives a value within that point's bounds |
| Engine.WeightedAverageWithin | react-app/src/components/MPRIVCalculator.tsx:111-129 | each point of the weighted average lies between its own lower and upper bound over the selected types (a between the bounds of the a values, and so on) |
| Engine.TdpDefault | react-app/src/components/MPRIVCalculator.tsx:136-140 | an empty selection gives pert(5, 10, 15) = 10, i.e. 0.1 · WEIGHTS.TDP |
| Engine.TdpAllUnknown | react-app/src/components/MPRIVCalculator.tsx:102-140 | a non-empty selection of unknown ids leaves TDP at 0 |
| Engine.TdpOfSelectionBounds | react-app/src/components/MPRIVCalculator.tsx:109-133 | a selection whose points lie in [0, 100] gives TDP in [0, weight] |
| Engine.SelectedTiposValid | react-app/src/components/MPRIVCalculator.tsx:105-107 | the selected types carry params in [0, 100] |
| Engine.TdpWeighted | react-app/src/components/MPRIVCalculator.tsx:101-140 | with a valid catalog, TDP lies in [0, WEIGHTS.TDP] |
| Engine.TotalAfectadosNonNegative | react-app/src/components/MPRIVCalculator.tsx:143 | non-negative counts sum to a non-negative total |
| Engine.PorcentajeBounds | react-app/src/components/MPRIVCalculator.tsx:146-147 | the clamped total lies in [0, population]; the percentage is 0 for population 0 and lies in [0, 100] |
| Engine.TavTierAsWritten | react-app/src/components/MPRIVCalculator.tsx:150-162 | the tier the code selects is one of the five (0 to 4), and it is the first exactly when count < 100 or percentage < 0.1 |
| Engine.TavTier | react-app/src/components/MPRIVCalculator.tsx:152-162 | the corrected tier, with gap-free count bands, is one of the five (0 to 4) |
| Engine.TavTierAsWrittenIsLowerBand | react-app/src/components/MPRIVCalculator.tsx:152-162 | first match over "count or percentage" selects the lower of the count tier (with the code's gapped bands) and the percentage tier |
| Engine.TavTierIsLowerBand | react-app/src/components/MPRIVCalculator.tsx:152-162 | for the corrected tier, the lower of the gap-free count tier and the percentage tier |
| Engine.TavFirstTier | react-app/src/components/MPRIVCalculator.tsx:152-153 | the corrected tier is the first exactly when count < 100 or percentage < 0.1 |
| Engine.TavTierMonotone | react-app/src/components/MPRIVCalculator.tsx:146-162 | with the corrected tier, a larger affected total never selects a lower tier |
| Engine.TavTierAsWrittenAgreesOnWholeCounts | react-app/src/components/MPRIVCalculator.tsx:152-162 | on whole counts the written bands and the gap-free bands select the same tier |
| Engine.TavTierAsWrittenMonotoneOnWholeCounts | react-app/src/components/MPRIVCalculator.tsx:146-162 | with whole affected totals and a whole population, a larger affected total never selects a lower tier of the code |
| Engine.TavTierAsWrittenNotMonotone | react-app/src/components/MPRIVCalculator.tsx:154-158 | with population 5000, the count 1000.5 selects tier 3 but 1001 selects tier 2 |
| Engine.TavWeightedOfTierMonotone | react-app/src/components/MPRIVCalculator.tsx:150-166 | higher tiers give larger TAV contributions, all within [0, WEIGHTS.TAV] |
| Engine.TavWeightedMonotone | react-app/src/components/MPRIVCalculator.tsx:143-166 | a larger whole affected total (whole population) never lowers TAV |
| Engine.TavWeighted | react-app/src/components/MPRIVCalculator.tsx:143-166 | TAV, from the tier the code selects, lies in [0, WEIGHTS.TAV] |
| Engine.NdvExpectedWithin | react-app/src/components/MPRIVCalculator.tsx:169-170 | the expected NDV percentage lies in [0, 100] and is 0 when the option has no triple |
| Engine.NdvWeighted | react-app/src/components/MPRIVCalculator.tsx:168-171 | with a valid configuration NDV lies in [0, WEIGHTS.NDV], and it is 0 when the option is unknown or has no triple |
| Engine.TevWeighted | react-app/src/components/MPRIVCalculator.tsx:173-182 | TEV is 0 without groups and otherwise lies in [0.85, 0.975] · WEIGHTS.TEV |
| Engine.TevMonotone | react-app/src/components/MPRIVCalculator.tsx:174-182 | more vulnerable groups never lower TEV |
| Engine.ContributionsOfWithin | react-app/src/components/MPRIVCalculator.tsx:101-182 | each of the four contributions lies between 0 and its weight |
| Engine.IedBounds | react-app/src/components/MPRIVCalculator.tsx:184-185 | IED lies in [0, IED_NORMALIZATION · (sum of the four weights)] |
| Engine.IedMonotoneInTav | react-app/src/components/MPRIVCalculator.tsx:184-185 | a larger TAV with the other contributions unchanged never lowers IED |
| Engine.IedMonotoneInAffected | react-app/src/components/MPRIVCalculator.tsx:143-185 | raising a whole affected total (whole population), all else equal, never lowers IED |
| Engine.IntPercentFallsBackToValue | react-app/src/components/MPRIVCalculator.tsx:187-193 | every known option yields its `value`, so INT points lie in [0.2, 0.9]; an unknown key yields 0 |
| Engine.IntPointsNonNegative | react-app/src/components/MPRIVCalculator.tsx:187-193 | INT points are never negative |
| Engine.SdiNonNegative | react-app/src/components/MPRIVCalculator.tsx:191-199 | SDI is non-negative for non-negative weights and inputs |
| Engine.Results | react-app/src/components/MPRIVCalculator.tsx:94-212 | the record carries the activity's pdi, severity and name, IED, INT points and RER; CDI lies in the tier's range for pdi in [0, 100]; multaFinal is CDI · SDI with no cap |
| Engine.ResultsBounds | react-app/src/components/MPRIVCalculator.tsx:191-200 | SDI and multaFinal are non-negative for a valid configuration and non-negative scores |
| Engine.ResultsMonotoneInIed | react-app/src/components/MPRIVCalculator.tsx:191-200 | a larger IED never lowers SDI or the fine |
| Engine.Mpriv | react-app/src/components/MPRIVCalculator.tsx:84-212 | a result exists exactly when area, activity, intencionalidad and naturalezaVulneracion are non-empty and the activity is catalogued; it carries that activity's name, severity and pdi |
| Engine.MprivResultBounds | react-app/src/components/MPRIVCalculator.tsx:84-212 | for a valid catalog: CDI in the tier's range, IED in [0, normalisation · weights], INT, SDI and multaFinal non-negative |
| Engine.MprivMonotoneInAffected | react-app/src/components/MPRIVCalculator.tsx:143-200 | raising a whole affected total (whole population), all else equal, keeps the result defined and never lowers the fine |
| Engine.SumWeightedParams | react-app/src/components/MPRIVCalculator.tsx:111-124 | the loop's totals equal the weighted sums and total weight of the selection |
| Engine.ComputeTdp | react-app/src/components/MPRIVCalculator.tsx:101-140 | the computed TDP equals `TdpWeighted` |
| Engine.ComputeTav | react-app/src/components/MPRIVCalculator.tsx:142-166 | the computed TAV equals `TavWeighted` |
| Engine.ComputeNdv | react-app/src/components/MPRIVCalculator.tsx:168-171 | the computed NDV equals `NdvWeighted` |
| Engine.ComputeTev | react-app/src/components/MPRIVCalculator.tsx:173-182 | the computed TEV equals `TevWeighted` |
| Engine.ComputeContributions | react-app/src/components/MPRIVCalculator.tsx:101-182 | the four computed contributions equal `ContributionsOf` |
| Engine.ComputeResults | react-app/src/components/MPRIVCalculator.tsx:184-212 | the record equals `Results` for the activity, IED and INT points |
| Engine.CalculateMPRIV | react-app/src/components/MPRIVCalculator.tsx:84-213 | returns `Mpriv`, which is null exactly when a selection is missing or the activity is not catalogued |
| Statistics.Insert | react-app/src/components/MPRIVCalculator.tsx:265 | inserting into a sorted sequence keeps it sorted and adds exactly the element |
| Statistics.SortAscending | react-app/src/components/MPRIVCalculator.tsx:265 | the sorted copy is ascending and a permutation of the fines |
| Statistics.SeqMin | react-app/src/components/MPRIVCalculator.tsx:267 | the minimum is one of the fines and no fine is smaller |
| Statistics.SeqMax | react-app/src/components/MPRIVCalculator.tsx:268 | the maximum is one of the fines and no fine is larger |
| Statistics.SumWithin | react-app/src/components/MPRIVCalculator.tsx:266 | values in [lo, hi] sum to between n · lo and n · hi |
| Statistics.AverageWithin | react-app/src/components/MPRIVCalculator.tsx:266 | the average of values in [lo, hi] lies in [lo, hi] |
| Statistics.Summary | react-app/src/components/MPRIVCalculator.tsx:264-269 | min, median and max are fines; min <= every fine <= max; min <= median <= max and min <= avg <= max |
| Statistics.SummaryNonNegative | react-app/src/components/MPRIVCalculator.tsx:264-269 | non-negative fines give non-negative statistics |
| Statistics.Histogram | react-app/src/components/MPRIVCalculator.tsx:271-281 | 20 counts, none larger than the number of fines |
| Statistics.BinsDisjoint | react-app/src/components/MPRIVCalculator.tsx:276-281 | no sample lies in two different bins |
| Statistics.FindBin | react-app/src/components/MPRIVCalculator.tsx:276-281 | a sample between the start of bin i and the end of the last bin lies in some bin at or after i |
| Statistics.HitsOfOneBin | react-app/src/components/MPRIVCalculator.tsx:276-281 | a sample lying in bin b is counted once among the first k bins when b < k, otherwise not at all |
| Statistics.ExactlyOneBin | react-app/src/components/MPRIVCalculator.tsx:276-281 | every sample in [min, max] falls into exactly one of the 20 bins |
| Statistics.BinTotalSnoc | react-app/src/components/MPRIVCalculator.tsx:276-281 | appending a sample adds its hits to the first k bins' total |
| Statistics.BinTotalCovers | react-app/src/components/MPRIVCalculator.tsx:276-281 | the 20 bins together count every sample in range once |
| Statistics.HistogramPrefixSum | react-app/src/components/MPRIVCalculator.tsx:276-281 | the first k histogram counts add up to the first k bin totals |
| Statistics.HistogramCoversAll | react-app/src/components/MPRIVCalculator.tsx:271-281 | with every fine between min and max, the counts add up to the number of fines |
| Statistics.DegenerateBinCount | react-app/src/components/MPRIVCalculator.tsx:275-279 | with width 0 and all fines at the minimum, only the last bin counts them, all of them |
| Statistics.HistogramDegenerate | react-app/src/components/MPRIVCalculator.tsx:273-281 | when min == max every fine lands in the last bin |
| Simulation.FactorRanges | react-app/src/components/MPRIVCalculator.tsx:229-235 | a uniform draw gives a PDI factor in [0.9, 1.1) and SDI factors in [0.85, 1.15), equal to 1 exactly for the draw 0.5 |
| Simulation.SimulatedFine | react-app/src/components/MPRIVCalculator.tsx:229-250 | the fine is never negative, and is the product of the perturbed CDI and SDI whenever that is not negative |
| Simulation.SimulatedFineUnfloored | react-app/src/components/MPRIVCalculator.tsx:229-250 | for draws in [0, 1) and non-negative scores the perturbed CDI stays at or above the tier's lower bound, SDI is non-negative, and the floor at 0 never acts |
| Simulation.FinesNonNegative | react-app/src/components/MPRIVCalculator.tsx:228-262 | one fine per iteration, none negative (`Math.max(0, ...)`) |
| Simulation.UnitDrawReproduces | react-app/src/components/MPRIVCalculator.tsx:228-252 | with all factors 1 the simulated CDI, SDI and fine equal the calculated CDI, SDI and multaFinal |
| Simulation.UnitDrawsCollapse | react-app/src/components/MPRIVCalculator.tsx:228-281 | with all factors 1 the four statistics equal multaFinal and all iterations fall in the last bin |
| Simulation.Simulate | react-app/src/components/MPRIVCalculator.tsx:228-281 | 0 <= min <= median <= max, min <= avg <= max, and 20 counts summing to the number of iterations |
| Simulation.SimulateDegenerate | react-app/src/components/MPRIVCalculator.tsx:271-281 | when min == max all iterations are counted in the last bin |
| Simulation.SimulateIteration | react-app/src/components/MPRIVCalculator.tsx:229-252 | one iteration's fine equals `SimulatedFine`: the fine of the perturbed CDI and SDI, floored at 0 |
| Simulation.RunMonteCarloSimulation | react-app/src/components/MPRIVCalculator.tsx:216-281 | nothing without a result; otherwise one fine per draw, and the published statistics and counts equal `Simulate` |
| Form.Dedup | react-app/src/components/MPRIVCalculator.tsx:427 | the result has no duplicates, holds exactly the ids of the input, and lists them in the order of their first occurrence |
| Form.DedupOfDistinct | react-app/src/components/MPRIVCalculator.tsx:427 | a list without duplicates is unchanged |
| Form.RemoveSelection | react-app/src/components/MPRIVCalculator.tsx:428 | the result holds exactly the ids of the input other than `id`, and is no longer |
| Form.AddSelection | react-app/src/components/MPRIVCalculator.tsx:423-429 | adding gives no duplicates and holds exactly the old ids and the new one |
| Form.AddSelectionSpec | react-app/src/components/MPRIVCalculator.tsx:423-429 | on a duplicate-free list adding appends only a missing id, and adding twice is adding once |
| Form.RemoveSelectionSpec | react-app/src/components/MPRIVCalculator.tsx:428 | removing keeps a list duplicate-free, and removing an absent id changes nothing |
| Form.RemoveSelectionAppend | react-app/src/components/MPRIVCalculator.tsx:428 | filtering a concatenation filters each part |
| Form.ToggleSelection | react-app/src/components/MPRIVCalculator.tsx:423-452 | after a toggle the id is selected exactly when checked, and every other id keeps its state |
| Form.ToggleSelectionSpec | react-app/src/components/MPRIVCalculator.tsx:423-452 | a toggle keeps a duplicate-free list duplicate-free |
| Form.ToggleRoundTrip | react-app/src/components/MPRIVCalculator.tsx:423-429 | checking then unchecking an unselected id restores the list exactly |
| Form.ToggleVulnerables | react-app/src/components/MPRIVCalculator.tsx:432-434 | the switch takes the checked state, the groups are kept when on and cleared when off, and no other field changes |
| Form.ToggleVulnerablesEffect | react-app/src/components/MPRIVCalculator.tsx:432-434 | switching off removes exactly the TEV contribution; switching on changes no contribution |
| Form.NatToString | react-app/src/components/MPRIVCalculator.tsx:469 | the numeral is a non-empty string of digits |
| Form.NatToStringRoundTrip | react-app/src/components/MPRIVCalculator.tsx:469 | reading a printed number back gives the number |
| Form.NatToStringInjective | react-app/src/components/MPRIVCalculator.tsx:469 | distinct numbers print differently |
| Form.FracValue | react-app/src/components/MPRIVCalculator.tsx:413 | the digits after the point are worth a value in [0, 1) |
| Form.Sanitize | react-app/src/components/MPRIVCalculator.tsx:413 | only digits and dots remain, and a numeral is left as it is |
| Form.SanitizeAppend | react-app/src/components/MPRIVCalculator.tsx:413 | a concatenation is sanitised part by part |
| Form.SanitizeChar | react-app/src/components/MPRIVCalculator.tsx:413 | a single character survives exactly when it is a digit or a dot |
| Form.NumberOf | react-app/src/components/MPRIVCalculator.tsx:413 | a parsed number is never negative |
| Form.NumberOfNaN | react-app/src/components/MPRIVCalculator.tsx:413 | among strings of digits and dots, `Number` gives NaN exactly for "." and for strings with a second dot |
| Form.CountInput | react-app/src/components/MPRIVCalculator.tsx:413 | the count read is never negative, a numeral is read as its value, and a sanitised input that is "." or holds a second dot (NaN) is read as 0 |
| Form.ClampCount | react-app/src/components/MPRIVCalculator.tsx:412-421 | the stored count is the smaller of the parsed input and the total: at most each of them, and equal to one of them; non-negative for a non-negative total |
| Form.ClampCountOfNat | react-app/src/components/MPRIVCalculator.tsx:412-421 | typing a whole number n stores n, or the total when n exceeds it |
| Form.CountInputDecimal | react-app/src/components/MPRIVCalculator.tsx:413 | "whole.frac" is read as its exact decimal value |
| Form.SanitizeKeeps | react-app/src/components/MPRIVCalculator.tsx:413 | a string of digits and dots is left unchanged |
| Form.ToLower | react-app/src/components/MPRIVCalculator.tsx:458 | lower-casing keeps the length, leaves no upper-case letter, and keeps every other character in place |
| Form.ToLowerIdempotent | react-app/src/components/MPRIVCalculator.tsx:458 | lower-casing twice is lower-casing once |
| Form.Trim | react-app/src/components/MPRIVCalculator.tsx:458 | the result is a slice of the input that leaves out only white space, has no white space at either end, and is empty exactly when the input is all white space |
| Form.Collapse | react-app/src/components/MPRIVCalculator.tsx:458 | the result holds only `[a-z0-9]` and single underscores, keeps the `[a-z0-9]` characters of the input in order, and starts as the input does |
| Form.Slugify | react-app/src/components/MPRIVCalculator.tsx:458 | the slug holds only `[a-z0-9]` words joined by single underscores, with no underscore at either end |
| Form.SlugifyKeeps | react-app/src/components/MPRIVCalculator.tsx:458 | the slug holds exactly the `[a-z0-9]` characters of the lower-cased input, in order |
| Form.TrimKeeps | react-app/src/components/MPRIVCalculator.tsx:458 | trimming drops no `[a-z0-9]` character |
| Form.StripKeeps | react-app/src/components/MPRIVCalculator.tsx:458 | stripping the end underscores drops no `[a-z0-9]` character |
| Form.CollapseOfShaped | react-app/src/components/MPRIVCalculator.tsx:458 | collapsing leaves a string of `[a-z0-9]` and single underscores unchanged |
| Form.SlugifyOfSlug | react-app/src/components/MPRIVCalculator.tsx:458 | a slug is its own slug |
| Form.SlugifyIdempotent | react-app/src/components/MPRIVCalculator.tsx:458 | slugifying twice is slugifying once |
| Form.IdBase | react-app/src/components/MPRIVCalculator.tsx:463 | the id base is a non-empty slug, "cat" when the name has no slug |
| Form.CandidateInjective | react-app/src/components/MPRIVCalculator.tsx:469 | distinct attempts give distinct ids |
| Form.CandidateIsSlug | react-app/src/components/MPRIVCalculator.tsx:469 | every attempted id for a slug base is a slug |
| Form.NotYetTried | react-app/src/components/MPRIVCalculator.tsx:469 | an attempt is never among the ids tried before it |
| Form.FirstFreeUnique | react-app/src/components/MPRIVCalculator.tsx:465-469 | the first free id is uniquely determined |
| Form.FreshId | react-app/src/components/MPRIVCalculator.tsx:464-469 | returns the first of base, base_1, base_2, ... not in use; it is a slug when the base is one |
| Form.AddTitularCategory | react-app/src/components/MPRIVCalculator.tsx:460-474 | a blank name changes nothing; otherwise it appends one category labelled with the trimmed name, whose id is the first free slug id, clears the input, and keeps all ids distinct |
| Form.AppendFreshKeepsDistinct | react-app/src/components/MPRIVCalculator.tsx:465-472 | appending a category with an unused id keeps the ids distinct |

## Left out

- Rendering, the React state setters, the Chart.js registration and the PDF download are not
  modelled. These are UI, browser and network plumbing.
- The histogram label strings and `toLocaleString` currency formatting are not modelled. They are
  display text.
- The activity `description` texts and the option `description` texts are display text and are not
  modelled.
- The `simulationResults` array is not modelled. It is filled on every iteration but never read.
- `Math.random` is not modelled. Its four values per iteration are the injected `Draw`; `ValidDraw`
  states the [0, 1) range, which `Simulation.SimulatedFineUnfloored` assumes.
- Engine.TavWeightedMonotone: assumes whole affected totals and a whole population. On fractional
  totals the code's count bands are not monotone (see Findings).
- Engine.IedMonotoneInAffected: assumes whole affected totals and a whole population, for the same
  reason.
- Engine.MprivMonotoneInAffected: assumes whole affected totals and a whole population, for the same
  reason.
- Simulation.RunMonteCarloSimulation: requires at least one iteration. With 0 iterations the source
  divides by zero and reads past the sorted array. The only caller passes the default of 1000.
- IEEE-754 rounding is not modelled; every formula is exact real arithmetic. In particular:
  - `min + 20 · binSize` may differ from `max` in floating point, so the histogram coverage is
    proved for exact arithmetic only;
  - very long numerals in the count input are read exactly, not rounded to a double.
- Form.Slugify: covers ASCII only. Unicode `toLowerCase`, and the Unicode white space that `trim`
  removes, are not modelled.
- Form.NumberOf: covers only what can reach it after the sanitising `replace`, namely strings of
  digits and dots. Signs, exponents and `Infinity` cannot occur there.
- JavaScript prototype properties such as `constructor` are not modelled as keys. The activity lookup
  is a plain map lookup.
- The three checkbox handlers (`handleToggleTitularCategory`, `handleVulnerableGroupChange`,
  `handleTipoDatoChange`) differ only in the field they update. All three are `Form.ToggleSelection`
  applied to that field.
- The constants the component imports but the data file does not declare are parameters (`Config`),
  constrained only by `ValidConfig`. No concrete values are assumed for them.

## Findings

| source | as written | input that shows it | evidently intended | confidence | as-written member | corrected member |
|---|---|---|---|---|---|---|
| react-app/src/components/MPRIVCalculator.tsx:154-158 | the count bands are [100, 1000], [1001, 10000] and [10001, 100000], so a count strictly between 1000 and 1001 (or 10000 and 10001) matches no count band and the tier falls to the percentage test alone; the count input accepts a decimal point (line 413), so such counts can be entered | population 5000: an affected total of 1000.5 (20.01%) selects tier 3, while 1001 selects tier 2 | gap-free bands (1000, 10000] and (10000, 100000], which agree with the written bands on whole counts and make the tier non-decreasing in the affected total | not executed; medium | Engine.TavTierAsWrittenNotMonotone | Engine.TavTierMonotone |

The calculation itself follows the code as written: `Engine.TavWeighted` and `Engine.ComputeTav`
use `Engine.TavTierAsWritten`. `Engine.TavTier` is the corrected definition, and
`Engine.TavTierAsWrittenAgreesOnWholeCounts` shows that the two select the same tier on whole
counts, which is every count reached by typing a whole number.
