# Employee salary engine and payslip exports (Dafny model)

This project models the payroll core of a Laravel/React HR module:

- **The salary component engine** (`EmployeeSalary::parseComponents`, `calculateAllComponents`, `getBasicSalary`).
  - It reads the `components` field of an `employee_salaries` row. The field holds bare IDs or `{id, custom_amount, custom_percentage}` objects.
  - It resolves each active component's amount: the custom amount first, then the custom percentage, then the template default.
  - It routes each amount into `earnings` or `deductions` and keeps running totals.
  - It adds the Indonesian BPJS statutory shares. Kesehatan (health) and JP (pension) are computed on capped bases. Only the three employee (EE) shares reduce net salary. The five employer (ER) shares sit in a separate `employer_contributions` map.
- **The payslip exports** (`PayslipController::exportExcel` and `exportPdf`).
  - Each deductions label of a payroll entry goes to one of six EE or five ER columns. Labels are matched case-insensitively by substring, first match wins. Employer labels are recognised by the case-sensitive `ER_` prefix.
  - Each earnings label goes to the THR/PKWT or bonus column.
  - A row carries the totals "statutory & tax" and "employer cost". A zero column cell is shown as a dash.
  - The two exports run the same loops, so the model defines the row once (`PayslipExport.Figures`, computed by `PayslipExport.ComputeRow`) and renders it twice.
- **Payslip generation** (`generate` and `bulkGenerate`).
  - `generate` skips unknown entries and entries that already have a payslip, and counts successes. Every failure becomes an error message and the loop goes on.
  - `bulkGenerate` has no per-entry `try`: the first exception ends the loop, and rows created before it stay.
  - The payslips table is a class, `PayslipGeneration.PayslipStore`, whose methods update it in place.
- **The employee-salaries page** (`index.tsx`).
  - The filter badge, the sort toggle, and the override dictionary kept in step with the multi-select.
  - The parse of stored components into the edit form, and the serialisation back on submit.
- **How the pieces meet** (module `Reclassification`).
  - The statutory labels the engine writes, read back by the export's classifier, give the original EE/ER split.
  - The export's totals agree with the engine's totals.
  - A custom value the page submits is "set" for the engine exactly when it was truthy on the page.

Modelling choices:

- Money is `real`: exact decimals, not IEEE floats.
- A PHP ordered array `label => amount` is an `Entries<V>`, a sequence of pairs. `PhpArray.Put` assigns a key in place, as PHP does: an existing key keeps its position and a new key is appended.
- `SalaryComponent::calculateAmount` is a function parameter.
- The database query for active components is a function over a catalog sequence.
- Whether `generatePayslipNumber`, `Payslip::create` or `generatePDF` throws is an input, `fate`, indexed by loop position.

Modules:

| module | file | models |
|---|---|---|
| `Wrappers`, `Text`, `Numerals`, `PhpArray` | `wrappers.dfy`, `text.dfy`, `numerals.dfy`, `php_array.dfy` | `Option`/`Result`, `strtolower`, `strpos`, digit strings, PHP arrays |
| `EmployeeSalary` | `employee_salary.dfy` | the model class and its engine |
| `PayslipExport` | `payslip_export.dfy` | the export row: classification, totals, cells |
| `PayslipGeneration` | `payslip_generation.dfy` | `generate` / `bulkGenerate` |
| `JsNumbers` | `js_numbers.dfy` | `parseInt` and integer `toString` |
| `EmployeeSalariesPage` | `employee_salaries_page.dfy` | the page's filter, sort and component-form logic |
| `Reclassification` | `reclassification.dfy` | the cross-file properties |

## Model

| member | source | states |
|---|---|---|
| EmployeeSalary.ActiveSalary | app/Models/EmployeeSalary.php:49-54 | `None` exactly when the employee has no active record; otherwise the first active record of that employee, in table order |
| EmployeeSalary.GetBasicSalary | app/Models/EmployeeSalary.php:59-63 | 0 when the employee has no active record, otherwise the basic salary of the first active one |
| EmployeeSalary.EntryRefs | app/Models/EmployeeSalary.php:75-87 | one ID slot per entry, in entry order: a bare ID, or the object's `id`, or an empty slot for an object without one (assumed to match nothing) |
| EmployeeSalary.ParsedOverridesKeys | app/Models/EmployeeSalary.php:75-87 | an ID has an override record exactly when some object-form entry carries it; bare IDs add none |
| EmployeeSalary.ParsedOverridesLastWins | app/Models/EmployeeSalary.php:79-82 | when several object entries carry one ID, the override is the last one's custom amount and percentage |
| EmployeeSalary.ParseComponents | app/Models/EmployeeSalary.php:69-90 | the loop returns exactly the ID list and the override map characterised above |
| EmployeeSalary.ResolveAmount | app/Models/EmployeeSalary.php:116-124 | a set custom amount wins; otherwise a set custom percentage gives basic × pct / 100; otherwise the template default. "Set" means not null, not `''` and not the integer 0 |
| EmployeeSalary.AmountPriorityExamples | app/Models/EmployeeSalary.php:117-124 | the strict test on concrete values: integer 0 and `''` fall through, while float 0.0 and the string "0" are set and give 0 |
| EmployeeSalary.FloatOfDecimalString | app/Models/EmployeeSalary.php:118 | the `(float)` cast of "12.5" is 12.5 |
| EmployeeSalary.FloatOfSignedString | app/Models/EmployeeSalary.php:118 | the cast skips leading space, reads a sign and ignores trailing text: " -3kg" is -3 |
| EmployeeSalary.FloatOfNonNumericString | app/Models/EmployeeSalary.php:118 | a string without a leading number casts to 0 |
| EmployeeSalary.ActiveComponents | app/Models/EmployeeSalary.php:100-103 | the selected components are exactly the catalog components whose ID is among the parsed IDs and whose status is `active` |
| PhpArray.Put | app/Models/EmployeeSalary.php:127-130 | `$map[$k] = $v`: the key maps to the new value, an existing key keeps its place, a new key is appended, other entries are unchanged |
| PhpArray.PutKeepsUnique | app/Models/EmployeeSalary.php:127-130 | writing a key into an array with unique keys leaves the keys unique, as in a real PHP array |
| EmployeeSalary.RouteKeys | app/Models/EmployeeSalary.php:126-132 | one step adds the component's name to the keys of its own side and to no other, keeping keys unique |
| EmployeeSalary.AccumulateTotals | app/Models/EmployeeSalary.php:105-132 | after the loop, total earnings are basic salary plus every earning-typed amount, and total deductions are every other amount |
| EmployeeSalary.AccumulateUnique | app/Models/EmployeeSalary.php:105-132 | both maps have unique keys and "Basic Salary" is always an earnings key |
| EmployeeSalary.AccumulateRouting | app/Models/EmployeeSalary.php:105-132 | the earnings keys are "Basic Salary" and the earning components' names; the deductions keys are the other components' names |
| EmployeeSalary.MapsMatchTotals | app/Models/EmployeeSalary.php:105-132 | with distinct names, none of them "Basic Salary", each map sums to its running total |
| EmployeeSalary.OverwriteAllowance | app/Models/EmployeeSalary.php:127 | writing an existing earnings key replaces its amount in place |
| EmployeeSalary.DuplicateNamesLoseAnEntry | app/Models/EmployeeSalary.php:126-128 | two earnings named "Allowance" of 100 and 200: both reach `total_earnings` (1300) but the map keeps only the second (it sums to 1200) |
| EmployeeSalary.AccumulateComponents | app/Models/EmployeeSalary.php:105-133 | the component loop computes the tally, with totals as in `AccumulateTotals` |
| EmployeeSalary.StatutoryFor | app/Models/EmployeeSalary.php:136-162 | Kesehatan is 1% EE and 4% ER of basic capped at 12,000,000 (120,000 and 480,000 above the cap). JP is 1% EE and 2% ER capped at 10,042,300 (100,423 and 200,846 above it). JHT is 2% EE and 3.7% ER, uncapped. JKK is 0.24% and JKM 0.3%, both ER |
| EmployeeSalary.StatutoryLabelPrefixes | app/Models/EmployeeSalary.php:165-177 | every employer-contribution label begins with `ER_`; none of the three EE labels does |
| EmployeeSalary.CalculateTotals | app/Models/EmployeeSalary.php:168-188 | gross = total earnings; net = earnings − deductions; earnings = basic + earning amounts; deductions = other amounts + the three EE shares only |
| EmployeeSalary.CalculateDeductionKeys | app/Models/EmployeeSalary.php:130-167 | the deductions keys are the non-earning component names plus the three EE labels |
| EmployeeSalary.EmployerSharesAreInformational | app/Models/EmployeeSalary.php:164-187 | the ER shares do not affect net salary. Every ER share sits under an `ER_` key in `employer_contributions`. An `ER_` key among the deductions can only be a component's own name |
| EmployeeSalary.SixMillionExample | app/Models/EmployeeSalary.php:136-187 | basic 6,000,000 with no components: the eight shares as listed, deductions 240,000, net 5,760,000 |
| EmployeeSalary.CalculateAllComponents | app/Models/EmployeeSalary.php:96-189 | the method returns the breakdown `Calculate` describes, about which the lemmas above are stated |
| Text.Lower | app/Http/Controllers/PayslipController.php:470 | `strtolower`: same length; each ASCII capital becomes lower case, every other character is kept |
| PayslipExport.ClassifyEmployee | app/Http/Controllers/PayslipController.php:491-507 | first match: social security iff a BPJS social keyword; healthcare iff not social and a BPJS health keyword; pension iff neither and a pension keyword; tax iff none of those and a tax keyword (irregular only with `irregular`/`tidak teratur`); expenses otherwise |
| PayslipExport.ClassifyEmployer | app/Http/Controllers/PayslipController.php:474-488 | first match on the lower-cased `ER_` label: healthcare iff `bpjs_kesehatan`; social security iff not healthcare and `bpjs_jht`/`bpjs_jkk`/`bpjs_jkm`; pension iff neither and `bpjs_jp`; tax iff none of those and `tax`/`pph` (irregular only with `irregular`); no column iff none of the keywords |
| PayslipExport.ClassifyDeduction | app/Http/Controllers/PayslipController.php:469-507 | a label goes to the EE side iff it does not begin with `ER_` (case-sensitive, original label), and then to the column of its lower-cased form; an `ER_` label goes to the ER column `ClassifyEmployer` gives its lower-cased form, and is dropped iff that gives none |
| PayslipExport.ClassifyEarning | app/Http/Controllers/PayslipController.php:511-522 | an earning is skipped iff it lower-cases to exactly "basic salary"; otherwise THR/PKWT iff `thr`/`pkwt`, bonus iff not that and `bonus`/`insentif`/`incentive`, dropped iff none of the five keywords |
| PayslipExport.AddEeTotal | app/Http/Controllers/PayslipController.php:525 | adding to any EE column raises `array_sum($eeValues)` by that amount |
| PayslipExport.AddErTotal | app/Http/Controllers/PayslipController.php:526 | adding to any ER column raises `array_sum($erValues)` by that amount |
| PayslipExport.FoldDeductionsAppend | app/Http/Controllers/PayslipController.php:469-508 | the loop over `a + b` is the loop over `a` followed by the loop over `b` |
| PayslipExport.EmployeeSide | app/Http/Controllers/PayslipController.php:474-489 | the labels that are not `ER_` |
| PayslipExport.DeductionColumnSums | app/Http/Controllers/PayslipController.php:469-526 | the EE columns add up to the sum of all non-`ER_` amounts (unmatched labels count as expenses); the ER columns add up to the `ER_` amounts that match an employer keyword |
| PayslipExport.EmployerLabelsNeverReachEmployee | app/Http/Controllers/PayslipController.php:474-489 | the EE columns are the same as for the breakdown with every `ER_` label removed |
| PayslipExport.EarningColumnSums | app/Http/Controllers/PayslipController.php:511-522 | THR/PKWT plus bonus is the sum of exactly the earnings that match one of their keywords; all others are dropped |
| PayslipExport.FiguresTotals | app/Http/Controllers/PayslipController.php:524-528 | statutory-and-tax = ΣEE + ΣER = non-`ER_` amounts + classified `ER_` amounts; employer cost = net pay + statutory-and-tax |
| PayslipExport.MissingEntryIsZero | app/Http/Controllers/PayslipController.php:444-447 | a payslip without an entry gives zero basic, net pay, columns and totals |
| PayslipExport.ComputeRow | app/Http/Controllers/PayslipController.php:444-528 | the per-row loops of both exports compute `Figures`, the classification the lemmas above describe |
| PayslipExport.ParkingFeeColumn | app/Http/Controllers/PayslipController.php:503-507 | "parking fee" matches no keyword and falls into expenses |
| PayslipExport.UnmatchedLabelIsExpense | app/Http/Controllers/PayslipController.php:503-507 | the deduction "Parking Fee" goes to EE expenses |
| PayslipExport.TidakTeraturColumn | app/Http/Controllers/PayslipController.php:497-502 | "pph 21 tidak teratur" is irregular EE tax |
| PayslipExport.EmployeeIrregularTax | app/Http/Controllers/PayslipController.php:497-502 | the deduction "PPh 21 Tidak Teratur" goes to EE irregular income tax |
| PayslipExport.EmployerTaxColumn | app/Http/Controllers/PayslipController.php:481-486 | "er_pph_tidak_teratur" is regular ER tax |
| PayslipExport.EmployerTaxIgnoresTidakTeratur | app/Http/Controllers/PayslipController.php:481-486 | ER tax looks only for `irregular`: "ER_PPh_Tidak_Teratur" is regular ER tax |
| PayslipExport.OtherEmployerColumn | app/Http/Controllers/PayslipController.php:475-488 | "er_other" matches no employer keyword |
| PayslipExport.UnmatchedEmployerLabelIsDropped | app/Http/Controllers/PayslipController.php:474-488 | "ER_Other" reaches no column on either side |
| PayslipExport.BasicSalaryEarningSkipped | app/Http/Controllers/PayslipController.php:515 | the earning "Basic Salary" is skipped |
| PayslipExport.ThrEarning | app/Http/Controllers/PayslipController.php:517-518 | "THR Lebaran" goes to THR/PKWT |
| PayslipExport.BonusLabel | app/Http/Controllers/PayslipController.php:517-520 | "performance bonus" has neither `thr` nor `pkwt` but has `bonus` |
| PayslipExport.BonusEarning | app/Http/Controllers/PayslipController.php:517-520 | "Performance Bonus" goes to bonus |
| PayslipExport.GiftLabel | app/Http/Controllers/PayslipController.php:517-521 | "holiday gift" contains none of the five earning keywords |
| PayslipExport.UnmatchedEarningDropped | app/Http/Controllers/PayslipController.php:511-522 | "Holiday Gift" reaches no earning column |
| PayslipExport.ExcelCellRules | app/Http/Controllers/PayslipController.php:538-555 | Basic and Monthly both show basic salary. Net pay and the two totals are always numbers. A column cell is a dash exactly when its value is zero, and otherwise shows the value |
| PayslipExport.ExportPathsAgree | resources/views/payslips/export-pdf.blade.php:79-96 | the PDF record rendered by the template shows the same money cells as the spreadsheet row for the same figures |
| PayslipGeneration.GenerateRunFacts | app/Http/Controllers/PayslipController.php:152-189 | old payslips stay. Each new payslip is for a visible input entry that had none. If no entry had two payslips before, none has after. Successes plus errors never exceed the inputs. The count lies between the created rows minus the errors and the created rows |
| PayslipGeneration.GenerateAllSucceed | app/Http/Controllers/PayslipController.php:152-189 | when nothing throws there are no errors, every creation is counted, and the payslips become the old ones plus every visible input ID |
| PayslipGeneration.RepeatedIdCreatesOnePayslip | app/Http/Controllers/PayslipController.php:161-165 | the input `[7, 7]` creates one payslip and counts 1 |
| PayslipGeneration.PdfFailureExample | app/Http/Controllers/PayslipController.php:172-187 | a PDF failure leaves the row, counts nothing and logs "Failed to generate payslip for entry ID 3: disk full" |
| PayslipGeneration.GenerateFlash | app/Http/Controllers/PayslipController.php:191-199 | the flash is a success exactly when the count is positive |
| PayslipGeneration.BulkFlash | app/Http/Controllers/PayslipController.php:267-270 | the flash is a success exactly when no exception ended the loop |
| PayslipGeneration.BulkRunFacts | app/Http/Controllers/PayslipController.php:232-265 | rows are never rolled back, new rows come from the run's entries, no entry gains a second payslip, and the count equals the rows added unless a PDF failure added one uncounted row |
| PayslipGeneration.BulkStopsAtFirstFailure | app/Http/Controllers/PayslipController.php:232-270 | after an exception, further entries change nothing |
| PayslipGeneration.PayslipStore.Generate | app/Http/Controllers/PayslipController.php:142-189 | the method's new table, count and errors are those of `GenerateRun` on the old table |
| PayslipGeneration.PayslipStore.BulkGenerate | app/Http/Controllers/PayslipController.php:226-271 | the method's new table and flash are those of `BulkRun` on the old table |
| JsNumbers.ParseIntRoundTrip | resources/js/pages/hr/employee-salaries/index.tsx:545 | the decimal string of every integer `n` parses back to `n`; that string is JavaScript's `String(n)` for the safe integers only |
| JsNumbers.ParseIntStopsAtNonDigit | resources/js/pages/hr/employee-salaries/index.tsx:545 | `parseInt("12abc")` is 12 |
| JsNumbers.ParseIntWithoutDigits | resources/js/pages/hr/employee-salaries/index.tsx:545 | `parseInt("abc")` is `NaN` |
| JsNumbers.ParseIntHexPrefix | resources/js/pages/hr/employee-salaries/index.tsx:545 | without a radix, `parseInt(" 0x1F")` is 31 |
| EmployeeSalariesPage.ActiveFilterCount | resources/js/pages/hr/employee-salaries/index.tsx:50-52 | the count is at most 6 |
| EmployeeSalariesPage.ActiveFiltersIffCount | resources/js/pages/hr/employee-salaries/index.tsx:45-52 | filters are active iff the count is positive, and inactive iff the state is the default one |
| EmployeeSalariesPage.SortToggle | resources/js/pages/hr/employee-salaries/index.tsx:72-73 | a click asks for `desc` iff the field is the current sort field and the current direction is `asc`, `asc` otherwise; repeated clicks alternate |
| EmployeeSalariesPage.Or | resources/js/pages/hr/employee-salaries/index.tsx:549-550 | `v \|\| d` is `v` when it is truthy, `d` otherwise |
| EmployeeSalariesPage.SyncedOverrides | resources/js/pages/hr/employee-salaries/index.tsx:597-608 | the keys of the synchronised dictionary are exactly the selected IDs |
| EmployeeSalariesPage.SyncedOverridesIdempotent | resources/js/pages/hr/employee-salaries/index.tsx:597-608 | syncing again with the same selection changes nothing |
| EmployeeSalariesPage.DeselectResets | resources/js/pages/hr/employee-salaries/index.tsx:597-608 | deselecting and reselecting an ID resets its custom values to blanks |
| EmployeeSalariesPage.SyncOverrides | resources/js/pages/hr/employee-salaries/index.tsx:597-608 | the change handler's two loops give the synchronised dictionary: IDs still selected keep their overrides, new IDs get blank ones, deselected ones are deleted |
| EmployeeSalariesPage.ParseFailsIffNull | resources/js/pages/hr/employee-salaries/index.tsx:713-728 | the parse throws exactly when some entry is `null` (its `toString` fails) |
| EmployeeSalariesPage.ParseIds | resources/js/pages/hr/employee-salaries/index.tsx:713-728 | one ID string per entry, in order: an object's truthy `id` as a string, a bare ID's string, and "[object Object]" for an object without a truthy `id` |
| EmployeeSalariesPage.ParseKeys | resources/js/pages/hr/employee-salaries/index.tsx:713-728 | every ID string, and nothing else, has an override |
| EmployeeSalariesPage.ParseLastWins | resources/js/pages/hr/employee-salaries/index.tsx:716-726 | an ID's override comes from its last entry: the object's custom values with falsy ones blanked, or blanks for a bare ID |
| EmployeeSalariesPage.ParseInitialComponents | resources/js/pages/hr/employee-salaries/index.tsx:709-728 | the `initialData` loop computes `ParseForm`; a missing field counts as empty |
| EmployeeSalariesPage.BlankEntryStopsParse | resources/js/pages/hr/employee-salaries/index.tsx:713-728 | once the parse has thrown, later entries do not matter |
| EmployeeSalariesPage.Submit | resources/js/pages/hr/employee-salaries/index.tsx:540-552 | one submitted object per selected ID; the payload has no `component_overrides` |
| EmployeeSalariesPage.SubmitFacts | resources/js/pages/hr/employee-salaries/index.tsx:544-552 | same length and order as the selection. Each ID is `parseInt` of its string. A custom value is sent iff it is truthy, and `null` otherwise, also for IDs without an override |
| EmployeeSalariesPage.RoundTrip | resources/js/pages/hr/employee-salaries/index.tsx:544-552 | object-form entries with distinct non-zero integer IDs, opened in the edit form and submitted unchanged, give back the same IDs in the same order and the same truthy custom values; falsy ones come back as `null` |
| EmployeeSalariesPage.RoundTripAt | resources/js/pages/hr/employee-salaries/index.tsx:716-721 | the round trip for a single entry |
| EmployeeSalariesPage.IntToStringInjective | resources/js/pages/hr/employee-salaries/index.tsx:716 | distinct integer IDs get distinct strings, so the edit form's dictionary keeps them apart |
| Reclassification.EeKesehatanIsHealthcare | app/Http/Controllers/PayslipController.php:493-494 | "BPJS Kesehatan (1%)" goes to EE healthcare |
| Reclassification.EeJhtIsSocialSecurity | app/Http/Controllers/PayslipController.php:491-492 | "BPJS JHT (2%)" goes to EE social security |
| Reclassification.EeJpIsPension | app/Http/Controllers/PayslipController.php:495-496 | "BPJS JP (1%)" goes to EE pension |
| Reclassification.ErKesehatanIsHealthcare | app/Http/Controllers/PayslipController.php:475-476 | "ER_BPJS_Kesehatan_(4%)" goes to ER healthcare |
| Reclassification.ErJhtIsSocialSecurity | app/Http/Controllers/PayslipController.php:477-478 | "ER_BPJS_JHT_(3.7%)" goes to ER social security |
| Reclassification.ErJkkIsSocialSecurity | app/Http/Controllers/PayslipController.php:477-478 | "ER_BPJS_JKK_(0.24%)" goes to ER social security |
| Reclassification.ErJkmIsSocialSecurity | app/Http/Controllers/PayslipController.php:477-478 | "ER_BPJS_JKM_(0.3%)" goes to ER social security |
| Reclassification.ErJpIsPension | app/Http/Controllers/PayslipController.php:479-480 | "ER_BPJS_JP_(2%)" goes to ER pension (it is not taken for JHT/JKK/JKM or Kesehatan first) |
| Reclassification.EmployeeEntriesReclassify | app/Http/Controllers/PayslipController.php:491-496 | the three EE entries add their shares to EE healthcare, social security and pension and leave every other column alone |
| Reclassification.EmployerEntriesReclassify | app/Http/Controllers/PayslipController.php:474-480 | the five ER entries add Kesehatan to ER healthcare, JHT + JKK + JKM to ER social security and JP to ER pension, and leave every other column alone |
| Reclassification.StatutoryEntriesReclassify | app/Http/Controllers/PayslipController.php:469-508 | the eight statutory entries after any earlier columns |
| Reclassification.EmployeeLabelsKeepEr | app/Http/Controllers/PayslipController.php:474-489 | labels without `ER_` leave the ER columns unchanged |
| Reclassification.EmployeeSideSumIsSum | app/Http/Controllers/PayslipController.php:491-507 | without `ER_` labels the EE-side sum is the sum of every amount |
| Reclassification.PutFreshLabels | app/Models/EmployeeSalary.php:165-167 | writing the three EE labels into deductions that lack them appends them in order |
| Reclassification.ComponentDeductionKeys | app/Models/EmployeeSalary.php:130 | component deductions are keyed by component names, so with plain names there is no `ER_` key and no EE statutory label among them |
| Reclassification.StatutoryEntriesAppended | app/Models/EmployeeSalary.php:165-167 | with plain names the engine's deductions are the component deductions followed by the three EE entries |
| Reclassification.FoldStoredDeductions | app/Http/Controllers/PayslipController.php:469-508 | deductions whose ER columns are empty, followed by the eight statutory entries, give `StatutoryColumns` |
| Reclassification.CalculateLabelMaps | app/Models/EmployeeSalary.php:165-183 | the breakdown's deductions are the component deductions with the three EE shares written in, and its employer contributions are the five ER entries |
| Reclassification.ExportRecoversStatutorySplit | app/Http/Controllers/PayslipController.php:468-508 | exporting a computed breakdown recovers the split. ER healthcare = ER Kesehatan; ER social security = JHT + JKK + JKM; ER pension = JP; both ER tax columns are 0. Each EE statutory column holds its EE share on top of what the components put there |
| Reclassification.ExportTotalsMatchEngine | app/Http/Controllers/PayslipController.php:524-528 | with plain, distinct names (none "Basic Salary"): the EE columns add up to `total_deductions`; statutory-and-tax = `total_deductions` + the five ER shares; employer cost = `total_earnings` + the five ER shares |
| Reclassification.SubmittedValueIsSetIffTruthy | app/Models/EmployeeSalary.php:117-119 | a value the page submits as `v \|\| null` is set for the engine exactly when `v` was truthy |
| Reclassification.SubmissionReachesEngine | resources/js/pages/hr/employee-salaries/index.tsx:544-552 | every submitted component reaches the engine as an object entry. Its values are set there exactly where they were truthy on the page. An ID without an override reaches it as null/null. An ID string that is the decimal form of `n` comes back as `n` |

## Left out

- Database access and tenant scoping (`getCompanyAndUsersId`, `created_by`). The visible payroll entries are a set, the active components are a catalog sequence filtered by ID and status, and salary records are a sequence in table order.
- `SalaryComponent::calculateAmount`: not shown, so it is a function parameter.
- `Payslip::generatePayslipNumber`, `Payslip::create` and `generatePDF`: not shown. Their only effects modelled are the new row and whether each throws, given as `fate`.
- Request validation, permissions, redirects and translation of flash messages: HTTP plumbing outside the core's logic.
- The query building of `index`, `exportExcel` and `exportPdf` (search, filters, sorting, pagination): database plumbing.
- Spreadsheet styling, column widths, number formats, the download response, DomPDF, and `number_format` in the template: presentation. A cell is a number or a dash.
- The text columns of a row (No, employee name, payslip number, branch, department, designation) and the date formatting of the pay period: presentation.
- The outer loop over payslips in both exports: each row depends only on its own payslip, so the model is one row.
- IEEE-754 rounding of PHP and JavaScript numbers: money is exact `real`, so results agree with the source only up to float rounding.
- EmployeeSalary.EntryRef: an object entry without a set `id` gives no ID. The source pushes the entry array itself into the ID list passed to `whereIn`; what the query builder does with a nested array (match nothing, or throw in recent Laravel versions) is outside this source, so the model assumes that such a slot matches no component. The page produces this case when a NaN ID is submitted as `"id": null`.
- EmployeeSalary.FloatOfString: reads an optional sign, digits and one decimal part. Exponents, hexadecimal and `INF`/`NAN` strings are not modelled.
- The `(float)` casts of stored breakdown amounts in the exports: the stored amounts are taken as numbers already.
- Reclassification.StoredDeductions: stands for the stored `deductions_breakdown`, taken to be the engine's deductions followed by its employer contributions. The payroll code that writes it is not part of this model.
- Reclassification.ExportRecoversStatutorySplit: holds only when no component name begins with `ER_` or equals one of the three EE labels (`PlainNames`). Otherwise a component can overwrite or shadow a statutory entry.
- Reclassification.ExportTotalsMatchEngine: also needs distinct component names, none of them "Basic Salary". Otherwise a map loses an amount its total kept (`EmployeeSalary.DuplicateNamesLoseAnEntry`).
- PayslipGeneration.GenerateRunFacts: bounds the count by the rows created rather than counting the successful attempts one by one. The exact count is stated when nothing throws (`GenerateAllSucceed`).
- EmployeeSalariesPage.RoundTrip: is stated for object-form entries with distinct non-zero integer IDs. For bare IDs or string IDs, nothing is claimed.
- JavaScript numbers in the form are integers. Fractional custom amounts and `parseInt` of fractional or exponent strings are left out.
- JsNumbers.IntToString: is the plain decimal string of an integer. JavaScript's `String(n)` gives exponent notation from 10^21 on and is inexact above 2^53, so `JsNumbers.ParseIntRoundTrip` stands for `parseInt(String(n)) === n` only on the safe integers.
- JsNumbers.ParseInt: skips ASCII white space only. The Unicode space separators `parseInt` also skips are not modelled.
- Text.Lower: lower-cases ASCII letters only, as `strtolower` does since PHP 8.2. Locale-dependent lower-casing is not modelled.
- React rendering, `router` calls, toasts and modal state: UI, not logic.
- The `download` action: file storage.
