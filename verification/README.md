# SCORAD and UAS7 calculators in Dafny

A functional model of the two clinical scoring modules of the website's
calculators, with proofs of what they promise.

- **SCORAD** (SCORing Atopic Dermatitis) has three input groups:
  - eight body-region values;
  - six intensity grades;
  - two subjective scores.

  Each group is validated on its own, and every violation in it is collected.
  The calculation refuses the first group that fails. Otherwise it computes:
  - A, the plain sum of the region values;
  - I, the sum of the grades;
  - S, itch plus sleeplessness;
  - the total A/5 + 7I/2 + S;
  - a three-band label taken from the unrounded total.

  Only A and the total are rounded to one decimal.
- **UAS7** (Urticaria Activity Score over 7 days) validates seven daily entries.
  Each entry has a day in 1..7 and wheal and itching scores in 0..3. The
  validator checks the entry count first, then each entry, then that the days
  are exactly 1..7. It never stops early, and it reports errors in that order. On valid input it
  computes:
  - each entry's daily total;
  - the weekly sum;
  - the daily average rounded to one decimal;
  - a four-band label.

  Helpers build an empty input and a single entry, and update one day's scores.

## Layout

| file | module | contents |
|---|---|---|
| `common.dfy` | `Common` | `Option`, `Result` (refusal or value), `Validation` (the `{ valid, errors }` record, valid meaning no errors), `Round1` (`Math.round(10x)/10` on exact reals) |
| `sorting.dfy` | `Sorting` | a sorted permutation is unique, which shows the UAS7 day sort cannot change the verdict; lists whose keys strictly ascend, which describe the SCORAD error order |
| `scorad.dfy` | `Scorad` | SCORAD records, validators, components, total, label, calculation, empty input |
| `scorad_examples.dfy` | `ScoradExamples` | worked SCORAD inputs |
| `uas7.dfy` | `Uas7` | UAS7 records, validators, totals, label, calculation, input helpers |
| `uas7_examples.dfy` | `Uas7Examples` | worked UAS7 weeks |

Modelling choices:
- Errors are tagged values that carry the field and its offending value. They
  are not rendered strings.
- A thrown `Error` becomes `Result.Failure`. SCORAD's failure names the group
  that failed and carries that group's error list. UAS7's failure carries the
  whole list.
- Region and subjective values are `real`. Grades, scores and days are `int`.
- `dailyTotal`, optional in the input record, is `Option<int>`.

## Model

| member | source | states |
|---|---|---|
| `Common.Round1` | website/src/components/calculators/ScoradCalculator/scoradCalculations.ts:235 | one-decimal rounding moves a value by at most half a tenth and always yields a whole number of tenths |
| `Common.Round1Between` | website/src/components/calculators/ScoradCalculator/scoradCalculations.ts:234-240 | rounding keeps a value inside any interval whose ends have one decimal, so rounded scores stay within their documented ranges |
| `Scorad.ValidateBodyRegions` | website/src/components/calculators/ScoradCalculator/scoradCalculations.ts:74-88 | valid iff every region lies in [0, its maximum]; a region's error, carrying its value, is present iff that region is out of range; no other errors occur |
| `Scorad.RegionErrors` | website/src/components/calculators/ScoradCalculator/scoradCalculations.ts:77-82 | the `forEach` over the regions yields an error for exactly the out-of-range regions it visits, each carrying that region's value |
| `Scorad.RegionErrorsOrdered` | website/src/components/calculators/ScoradCalculator/scoradCalculations.ts:77-82 | visiting regions in increasing declaration order yields errors in increasing region order |
| `Scorad.BodyRegionErrorsInOrder` | website/src/components/calculators/ScoradCalculator/scoradCalculations.ts:74-88 | the region errors come in declaration order, head/neck first and genitals last |
| `Scorad.BodyRegionsValidFieldwise` | website/src/components/calculators/ScoradCalculator/scoradCalculations.ts:60-88 | region validity is exactly the eight bounds 9, 9, 9, 18, 18, 18, 18, 1 of `REGION_MAX_BSA` |
| `Scorad.MaxBsaTotal` | website/src/components/calculators/ScoradCalculator/scoradCalculations.ts:60-69 | the region maxima add up to 100 |
| `Scorad.ValidateTotalBsa` | website/src/components/calculators/ScoradCalculator/scoradCalculations.ts:94-104 | never blocks; reports the plain sum of the eight region values; warns, with that sum, iff the sum exceeds 100 |
| `Scorad.NoBsaWarningWhenRegionsValid` | website/src/components/calculators/ScoradCalculator/scoradCalculations.ts:94-104 | regions that pass `validateBodyRegions` never raise the total-area warning |
| `Scorad.ValidateIntensity` | website/src/components/calculators/ScoradCalculator/scoradCalculations.ts:109-122 | valid iff every grade is in {0, 1, 2, 3}; an item's error, carrying its grade, is present iff that grade is outside that set; no other errors occur |
| `Scorad.IntensityErrors` | website/src/components/calculators/ScoradCalculator/scoradCalculations.ts:112-116 | the `forEach` over the items yields an error for exactly the badly graded items it visits |
| `Scorad.IntensityErrorsOrdered` | website/src/components/calculators/ScoradCalculator/scoradCalculations.ts:112-116 | visiting items in increasing declaration order yields errors in increasing item order |
| `Scorad.IntensityErrorsInOrder` | website/src/components/calculators/ScoradCalculator/scoradCalculations.ts:109-122 | the intensity errors come in declaration order, redness first and dryness last |
| `Scorad.IntensityValidFieldwise` | website/src/components/calculators/ScoradCalculator/scoradCalculations.ts:109-122 | intensity validity is exactly each of the six grades lying in 0..3 |
| `Scorad.ValidateSubjective` | website/src/components/calculators/ScoradCalculator/scoradCalculations.ts:127-142 | valid iff itch and sleeplessness both lie in [0, 10], fractions included; each error is present iff its score is outside; at most two errors, itch first |
| `Scorad.AreaSum` | website/src/components/calculators/ScoradCalculator/scoradCalculations.ts:148-158 | `calculateTotalBsa` and `calculateAScore` are the unweighted sum of the eight region values |
| `Scorad.IScore` | website/src/components/calculators/ScoradCalculator/scoradCalculations.ts:164-166 | I is the sum of the six grades |
| `Scorad.SScore` | website/src/components/calculators/ScoradCalculator/scoradCalculations.ts:172-174 | S lies in [0, 20] whenever both subjective scores lie in [0, 10] |
| `Scorad.SumRegionsBounded` | website/src/components/calculators/ScoradCalculator/scoradCalculations.ts:156-158 | in-range region values sum to between 0 and the sum of their maxima |
| `Scorad.AScoreBounds` | website/src/components/calculators/ScoradCalculator/scoradCalculations.ts:4-10 | on regions that pass validation, A lies in [0, 100] |
| `Scorad.SumItemsBounded` | website/src/components/calculators/ScoradCalculator/scoradCalculations.ts:164-166 | grades in 0..3 over n items sum to between 0 and 3n |
| `Scorad.IScoreBounds` | website/src/components/calculators/ScoradCalculator/scoradCalculations.ts:160-166 | on grades that pass validation, I lies in [0, 18] |
| `Scorad.TotalScore` | website/src/components/calculators/ScoradCalculator/scoradCalculations.ts:228-229 | A/5 + 7I/2 + S is non-negative on non-negative components, and at most 103 when A is at most 100, I at most 18 and S at most 20 |
| `Scorad.RawTotal` | website/src/components/calculators/ScoradCalculator/scoradCalculations.ts:223-229 | on valid input the unrounded total lies in [0, 103] |
| `Scorad.Interpret` | website/src/components/calculators/ScoradCalculator/scoradCalculations.ts:183-191 | mild iff below 25; moderate iff at least 25 and below 50; severe iff at least 50 |
| `Scorad.InterpretMonotone` | website/src/components/calculators/ScoradCalculator/scoradCalculations.ts:183-191 | a higher total never gets a milder label |
| `Scorad.InterpretBoundaries` | website/src/components/calculators/ScoradCalculator/scoradCalculations.ts:183-191 | 24.9 is mild, 25 and 49.9 are moderate, exactly 50 is severe |
| `Scorad.CalculateScorad` | website/src/components/calculators/ScoradCalculator/scoradCalculations.ts:206-241 | refuses iff some group is invalid, reporting regions before intensity before subjective with that group's errors. Otherwise A in [0, 100], I in [0, 18], S in [0, 20], total in [0, 103]. A and the total are the rounded sum and formula, I and S are unrounded, and the label comes from the unrounded total |
| `Scorad.CalculatedFromComponents` | website/src/components/calculators/ScoradCalculator/scoradCalculations.ts:223-240 | on valid input the result is exactly the record assembled from the four components and the label |
| `Scorad.ValidInputFieldwise` | website/src/components/calculators/ScoradCalculator/scoradCalculations.ts:206-221 | `calculateScorad` accepts an input iff all sixteen field bounds hold |
| `Scorad.EmptyInput` | website/src/components/calculators/ScoradCalculator/scoradCalculations.ts:247-272 | every region value, grade and subjective score of the empty input is zero |
| `ScoradExamples.EmptyInputScoresZero` | website/src/components/calculators/ScoradCalculator/scoradCalculations.test.ts:32-41 | the empty input scores A = I = S = total = 0 and is mild |
| `ScoradExamples.IntensityOnlyExample` | website/src/components/calculators/ScoradCalculator/scoradCalculations.test.ts:91-102 | redness 2 and dryness 1 alone give I = 3 and total 10.5, mild |
| `ScoradExamples.MaximumExample` | website/src/components/calculators/ScoradCalculator/scoradCalculations.ts:4-10 | every region at its maximum, every grade 3 and both subjective scores 10 give A = 100, I = 18, S = 20, total 103, severe |
| `ScoradExamples.LabelUsesUnroundedTotal` | website/src/components/calculators/ScoradCalculator/scoradCalculations.ts:229-240 | a valid input with unrounded total 24.96 is reported with total 25.0 yet labelled mild, although 25.0 itself is moderate |
| `Sorting.SortedPermutationsEqual` | website/src/components/calculators/Uas7Calculator/uas7Calculations.ts:96 | two lists sorted by the same antisymmetric comparison with the same elements are equal: a sort has one outcome |
| `Uas7.ValidateDailyScore` | website/src/components/calculators/Uas7Calculator/uas7Calculations.ts:55-74 | valid iff the day is in 1..7 and both scores are in 0..3; each field's error is present iff that field is out of its domain; no other errors; order day, wheals, itching |
| `Uas7.EntryErrors` | website/src/components/calculators/Uas7Calculator/uas7Calculations.ts:88-93 | the per-entry errors are empty iff every entry passes `validateDailyScore`, and never outnumber the entries |
| `Uas7.EntryErrorsContents` | website/src/components/calculators/Uas7Calculator/uas7Calculations.ts:88-93 | every per-entry error names an invalid entry's day and errors, and every invalid entry contributes its error |
| `Uas7.EntryErrorsAppend` | website/src/components/calculators/Uas7Calculator/uas7Calculations.ts:88-93 | the per-entry errors follow input order: those of a concatenation are the concatenation of those of its parts |
| `Uas7.ValidateUas7Input` | website/src/components/calculators/Uas7Calculator/uas7Calculations.ts:79-108 | valid iff there are seven entries, each entry is valid, and the day numbers are 1..7 each exactly once |
| `Uas7.CountErrors` | website/src/components/calculators/Uas7Calculator/uas7Calculations.ts:83-85 | at most one count error, present iff the length is not 7, carrying the length |
| `Uas7.DaySetErrors` | website/src/components/calculators/Uas7Calculator/uas7Calculations.ts:95-102 | at most one day-set error, present iff the days are not 1..7, carrying the days |
| `Uas7.CountErrorFirst` | website/src/components/calculators/Uas7Calculator/uas7Calculations.ts:82-85 | the first error is the count error iff the length is not 7 |
| `Uas7.DaySetErrorLast` | website/src/components/calculators/Uas7Calculator/uas7Calculations.ts:95-102 | the last error is the day-set error iff the days are not 1..7 |
| `Uas7.EntryErrorsInMiddle` | website/src/components/calculators/Uas7Calculator/uas7Calculations.ts:79-108 | between the optional count error and the optional day-set error come exactly the per-entry errors in input order |
| `Uas7.WrongCountFailsDaySet` | website/src/components/calculators/Uas7Calculator/uas7Calculations.ts:83-101 | a count other than 7 always fails the day-set check as well |
| `Uas7.SortedDaysVerdict` | website/src/components/calculators/Uas7Calculator/uas7Calculations.ts:96-101 | for any antisymmetric comparison that orders 1..7 ascending, the sorted days equal [1..7] iff the days are 1..7 each once. The string sort affects only the message |
| `Uas7.DaysMatchDistinct` | website/src/components/calculators/Uas7Calculator/uas7Calculations.ts:95-101 | a passing day-set check means seven entries with days in 1..7, no two equal |
| `Uas7.CalculateDailyTotal` | website/src/components/calculators/Uas7Calculator/uas7Calculations.ts:113-115 | scores in 0..3 give a daily total in [0, 6], zero iff both scores are 0 |
| `Uas7.WithDailyTotal` | website/src/components/calculators/Uas7Calculator/uas7Calculations.ts:157-160 | filling in an entry's total keeps every other field, stores a total equal to the entry's wheals + itching, and on a valid entry that total lies in [0, 6] |
| `Uas7.Scored` | website/src/components/calculators/Uas7Calculator/uas7Calculations.ts:157-160 | the `map` keeps length, order and every other field, and stores wheals + itching as each entry's total |
| `Uas7.WeeklySum` | website/src/components/calculators/Uas7Calculator/uas7Calculations.ts:163 | the `reduce` with `dailyTotal \|\| 0` equals the reference sum of wheals + itching when every entry stores its own total, and is 0 when no entry stores one |
| `Uas7.AverageDaily` | website/src/components/calculators/Uas7Calculator/uas7Calculations.ts:166 | the average is a whole number of tenths within half a tenth of total/7, and lies in [0, 6] for a total in [0, 42] |
| `Uas7.ValidEntriesScored` | website/src/components/calculators/Uas7Calculator/uas7Calculations.ts:156-163 | on valid entries, each filled-in entry keeps its fields and gets total wheals + itching in [0, 6]; the weekly sum is in [0, 42] |
| `Uas7.WeeklySumOfScored` | website/src/components/calculators/Uas7Calculator/uas7Calculations.ts:157-163 | summing the filled-in daily totals is summing wheals + itching over the entries |
| `Uas7.RawSumBounded` | website/src/components/calculators/Uas7Calculator/uas7Calculations.ts:163 | n valid entries sum to between 0 and 6n |
| `Uas7.Interpret` | website/src/components/calculators/Uas7Calculator/uas7Calculations.ts:127-137 | well-controlled iff 0; mild iff nonzero and at most 6; moderate iff 7..15; severe iff at least 16 |
| `Uas7.InterpretMonotone` | website/src/components/calculators/Uas7Calculator/uas7Calculations.ts:127-137 | for non-negative totals, a higher weekly total never gets a milder label |
| `Uas7.InterpretBoundaries` | website/src/components/calculators/Uas7Calculator/uas7Calculations.ts:117-137 | 6 is mild, 7 and 15 are moderate, 16 is severe |
| `Uas7.Summarize` | website/src/components/calculators/Uas7Calculator/uas7Calculations.ts:156-176 | on valid entries: same length, order, days and scores; every total filled in as wheals + itching in [0, 6]; weekly total = sum of wheals + itching in [0, 42]; label of that total; average = one-decimal rounding of total/7, in [0, 6] |
| `Uas7.CalculateUas7` | website/src/components/calculators/Uas7Calculator/uas7Calculations.ts:149-177 | refuses with the full error list iff validation fails; otherwise returns the summary of the seven entries |
| `Uas7.CalculateIgnoresStoredTotals` | website/src/components/calculators/Uas7Calculator/uas7Calculations.ts:157-163 | inputs that differ only in their stored daily totals get the same result |
| `Uas7.CalculateIdempotent` | website/src/components/calculators/Uas7Calculator/uas7Calculations.ts:149-177 | calculating again on a result's entries gives the same result |
| `Uas7.EmptyInput` | website/src/components/calculators/Uas7Calculator/uas7Calculations.ts:183-195 | seven entries, days 1..7 in order, all scores zero, no stored totals |
| `Uas7.CreateDailyScore` | website/src/components/calculators/Uas7Calculator/uas7Calculations.ts:201-208 | the entry has the given day and scores (defaults 0), and its stored total is already the one the calculation computes |
| `Uas7.UpdateDayScore` | website/src/components/calculators/Uas7Calculator/uas7Calculations.ts:213-231 | same length; entries for other days unchanged; entries for the day take each supplied score, keep each omitted one, and keep their stored total |
| `Uas7.UpdateWithNothingIsIdentity` | website/src/components/calculators/Uas7Calculator/uas7Calculations.ts:224-225 | an update supplying neither score changes nothing |
| `Uas7.UpdatePreservesValidity` | website/src/components/calculators/Uas7Calculator/uas7Calculations.ts:213-231 | updating a valid input with scores in 0..3 keeps it valid |
| `Uas7Examples.EmptyInputScoresZero` | website/src/components/calculators/Uas7Calculator/uas7Calculations.test.ts:87-95 | the empty input is valid and scores 0, well-controlled, average 0 |
| `Uas7Examples.MaximumWeekExample` | website/src/components/calculators/Uas7Calculator/uas7Calculations.test.ts:97-115 | seven days of 3 and 3 total 42, average 6, severe |
| `Uas7Examples.MixedWeekExample` | website/src/components/calculators/Uas7Calculator/uas7Calculations.test.ts:285-304 | the week (2,2) (1,1) (3,3) (0,0) (1,2) (2,1) (1,1) totals 20, averages 2.9 and, being above 15, is severe |
| `Uas7Examples.AverageExamples` | website/src/components/calculators/Uas7Calculator/uas7Calculations.ts:166 | weekly totals 0, 20, 14 and 42 average to 0, 2.9, 2 and 6 |

## Left out

- React components, UI-local helpers, the dismissible banner and the site
  configuration: they hold no scoring logic.
- IEEE-754 arithmetic: the model uses exact reals. The representation error of
  `Math.round(x*10)/10`, `NaN`, `undefined` fields, non-number fields and
  runtime coercion are not modelled. Days, grades and scores are integers, so
  a fractional day such as 1.5 cannot be written.
- Message text: the wording of each error, number formatting (`toFixed`, `%`),
  the `', '` and `'; '` joins, and the `Day d:` prefix of an entry error. Errors
  are tagged values carrying the same information.
- `WHEAL_DESCRIPTIONS` and `ITCHING_DESCRIPTIONS`: display constants only.
- The order of `Object.entries` and `Object.values` over the input objects.
  The model assumes the declaration order, which is the order
  `createEmptyInput` builds. Extra properties on the objects are not modelled.
- The string sort of the day list. The message that carries the days lists them
  in input order, because only the verdict of the comparison is modelled.
  `Uas7.SortedDaysVerdict` shows that this verdict is the same for any
  antisymmetric sort order, including the string order `.sort()` uses.
- Uas7.InterpretMonotone: stated for non-negative totals only. The weekly
  total of a valid input is never negative, and for negative totals the code's
  bands are not monotone (-1 is mild, 0 is well-controlled).

## Notes on the source

- The region values are read as body-surface-area contributions, each bounded
  by its region's maximum (`REGION_MAX_BSA`). The interface comments call them
  "BSA percentage (0-9)" and so on. Several tests, and the calculator page
  (`ScoradCalculator.tsx`), instead treat them as 0-100 percentages of each
  region. This model follows the calculation code. Under it, for example,
  head/neck 100 is rejected, not counted as 9.
- The header comment of `interpretScore` for SCORAD says "Severe: > 50". The
  code makes exactly 50 severe, and the model follows the code.
- `updateDayScore` keeps an entry's stored `dailyTotal` when it changes its
  scores, so the stored total can go stale. `calculateUas7` recomputes every
  total, so the stale value never reaches a result
  (`Uas7.CalculateIgnoresStoredTotals`).
- The SCORAD label comes from the unrounded total, so a reported total of 25.0
  can be labelled mild (`ScoradExamples.LabelUsesUnroundedTotal`).
