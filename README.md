# Employee and payroll records, modelled in Dafny

This project models the record layer of a small React employee/payroll
manager (`dynamic-micro-dbms`):

- the sequential employee-id generator;
- the payroll calculator;
- the local record store: employees, payrolls and column preferences;
- the employee and payroll forms: initial data, change handling, validation, submit;
- the list pages: columns, search, status counts, paging;
- the page-number window of the pagination control;
- the earnings/deductions classifier of the payroll detail view.

The module layout follows the source:

| file | module | source |
|---|---|---|
| `js_values.dfy` | `JsValues` | the JavaScript values and built-ins the code relies on (`===`, truthiness, `trim`, `toLowerCase`, `includes`, `parseInt`, `parseFloat`, `slice`, `[...new Set]`) |
| `schema.dfy` | `Schema` | the employee and payroll schemas of `src/api.js`, and the older employee schema in `src/pages/HomePage.jsx` |
| `helpers.dfy` | `Helpers` | `src/utils/helpers.jsx` |
| `employee_utils.dfy` | `EmployeeUtils` | `src/utils/employeeUtils.jsx` |
| `api.dfy` | `Api` | `src/api.js` |
| `form_checks.dfy` | `FormChecks` | what the two employee forms share (fill loop, validate loop, email and phone rules) |
| `employee_record_modal.dfy` | `EmployeeRecordModal` | `src/modals/EmployeeRecordModal.jsx` |
| `record_modal.dfy` | `RecordModal` | `src/modals/RecordModal.jsx` |
| `payroll_record_modal.dfy` | `PayrollRecordModal` | `src/modals/PayrollRecordModal.jsx` |
| `list_view.dfy` | `ListView` | what both list pages share: pages of ten, the column toggle, row filtering |
| `payroll_page.dfy` | `PayrollPage` | `src/pages/PayrollPage.jsx` |
| `home_page.dfy` | `HomePage` | `src/pages/HomePage.jsx` |
| `pagination_controls.dfy` | `PaginationControls` | `src/components/PaginationControls.jsx` |
| `payroll_detail_modal.dfy` | `PayrollDetailModal` | `src/modals/PayrollDetailModal.jsx` |

Modelling choices:

- A record is a `map<string, Value>`.
  - A `Value` is a string, a finite number (an exact `real`), NaN or null.
  - An absent key stands for `undefined`, and `{...a, ...b}` is `a + b`.
- Where the source changes state step by step, the model does too:
  - the store and the components' state are classes, whose methods modify their fields;
  - loops are `while` loops, proved against a function that specifies them.
- Pure map/filter chains are functions.
- `localStorage` becomes the store's fields; an `Option` tells a key that was never written from a stored list.
- `generateInternalId` (random) becomes a `freshId` parameter.
- `window.confirm` becomes a boolean parameter.
- `String(x)` of a number (host formatting) becomes a `show` parameter.

## Model

| member | source | states |
|---|---|---|
| JsValues.Get | src/api.js:210 | reading `r[k]`: defined exactly when the key is present, and then its value |
| JsValues.Put | src/modals/PayrollRecordModal.jsx:65-73 | `{...r, [k]: v}` sets exactly `k` and leaves every other key as it was |
| JsValues.TrimEmptyIff | src/modals/EmployeeRecordModal.jsx:53-54 | a text trims to "" exactly when it is all white space |
| JsValues.TrimStart | src/modals/EmployeeRecordModal.jsx:53-54 | `trimStart` drops a white-space prefix and nothing more: the rest is a suffix of the input, not starting with white space |
| JsValues.TrimEnd | src/modals/EmployeeRecordModal.jsx:53-54 | `trimEnd` drops a white-space suffix and nothing more |
| JsValues.ToLower | src/utils/helpers.jsx:60 | ASCII `toLowerCase`: same length, each character lowered |
| JsValues.ContainsIff | src/utils/helpers.jsx:60 | `includes` holds exactly when the text occurs at some position |
| JsValues.MissingCharNotContained | src/utils/helpers.jsx:60 | a text lacking one of the searched characters does not include it |
| JsValues.DigitRun | src/utils/helpers.jsx:8 | the digit prefix `parseInt` reads: all digits, maximal |
| JsValues.ParseFloatValue | src/utils/helpers.jsx:18 | `parseFloat` of a number is the number; of undefined, null or NaN it is NaN |
| JsValues.CoerceNumber | src/utils/helpers.jsx:18-33 | `parseFloat(x) \|\| 0` is the parsed number, or 0 when parsing fails; never an error |
| JsValues.SliceBound | src/pages/PayrollPage.jsx:156-159 | a `slice` bound is resolved into `0..length` |
| JsValues.Dedup | src/api.js:299 | `[...new Set(xs)]` has no duplicates, the same elements as `xs`, and is no longer |
| JsValues.DedupKeepsFirstOccurrenceOrder | src/api.js:299 | the kept elements stand in the order of their first occurrences |
| JsValues.DedupOfDistinct | src/api.js:299 | a list without duplicates is kept as it is |
| JsValues.DedupPrefix | src/api.js:299 | de-duplicating `a + b` starts with the de-duplicated `a` |
| Schema.Keys | src/api.js:8-38 | the key list of a schema, index by index |
| Schema.FindField | src/api.js:247 | `fields.find(f => f.key === key)`: `undefined` exactly when no field has the key, otherwise a field of the schema with that key |
| Schema.FindFieldAt | src/api.js:247 | `find` returns the field at the first index that holds the key |
| Schema.DisbursementDateFrozen | src/api.js:69-76 | the payroll schema's `disbursementDate` is flagged `isEditableAfterCreation: false` |
| Schema.EmployeeIdAlwaysVisible | src/api.js:49-57 | the payroll schema's `employeeId` is flagged `alwaysVisibleInPayroll` |
| Helpers.IdNumbersIff | src/utils/helpers.jsx:5-9 | a number is collected exactly when some employee's id is a string starting with `E` whose remainder `parseInt`s to it |
| Helpers.Max | src/utils/helpers.jsx:11 | `Math.max` of a non-empty list is one of its elements and bounds all of them |
| Helpers.NatToString | src/utils/helpers.jsx:12 | `String(n)`: decimal digits that denote `n`, a single one exactly below 10 |
| Helpers.PadStart | src/utils/helpers.jsx:12 | `padStart` reaches the width by filling on the left, and never truncates |
| Helpers.LeadingZeros | src/utils/helpers.jsx:12 | leading zeros do not change the value of a digit string |
| Helpers.ParseIntDigits | src/utils/helpers.jsx:8 | `parseInt` of a digit string is the number it denotes |
| Helpers.ParseIntNegative | src/utils/helpers.jsx:8 | `parseInt` of `-` followed by digits is the negated number |
| Helpers.ParseFormatted | src/utils/helpers.jsx:8-12 | parsing the padded number of a generated id gives the number back, except for one-digit negatives, which are padded into "0-d" and parse as 0 |
| Helpers.FormatEmployeeIdNumber | src/utils/helpers.jsx:5-12 | the number a generated id contributes when the generator meets it again |
| Helpers.NextIdNumberExceedsAll | src/utils/helpers.jsx:4-13 | the number in the generated id is greater than every number an existing id contributes |
| Helpers.NextEmployeeIdIsFresh | src/utils/helpers.jsx:4-13 | the generated id equals no existing employee id |
| Helpers.NextEmployeeIdWithoutIds | src/utils/helpers.jsx:11-12 | with no usable ids the result is "E001" |
| Helpers.NextEmployeeIdOfEmpty | src/utils/helpers.jsx:11-12 | `generateNextEmployeeId([])` is "E001" |
| Helpers.FormatOneDigit | src/utils/helpers.jsx:12 | a one-digit number is padded with two zeros (E001 to E009) |
| Helpers.FormatWide | src/utils/helpers.jsx:12 | from 100 on no padding is added and nothing is cut (E999, then E1000) |
| Helpers.Round2IsCents | src/utils/helpers.jsx:64 | `parseFloat(x.toFixed(2))` is a whole number of hundredths |
| Helpers.Round2Error | src/utils/helpers.jsx:64 | rounding moves a value by at most half a cent |
| Helpers.Round2OfCents | src/utils/helpers.jsx:64 | a whole number of cents is not changed by rounding |
| Helpers.Round2Idempotent | src/utils/helpers.jsx:64 | rounding twice is rounding once |
| Helpers.RoundEntryIdempotent | src/utils/helpers.jsx:57-69 | one pass of the rounding loop, applied twice, is applied once |
| Helpers.CoerceInputs | src/utils/helpers.jsx:16-33 | the copy and the coercing assignments give the input with its eight inputs replaced by their coerced numbers; `basicSalary` is read but not yet written |
| Helpers.AddAmounts | src/utils/helpers.jsx:35-55 | the six amount assignments store the derived amounts |
| Helpers.RoundNumbers | src/utils/helpers.jsx:57-69 | the `for...in` loop rounds each number-typed key that is neither a percentage nor `basicSalary`, NaN becoming 0, and leaves the other keys alone |
| Helpers.CalculatePayrollMetrics | src/utils/helpers.jsx:15-73 | the calculator as a whole: the record specified by `PayrollMetrics`, whose properties the lemmas below state |
| Helpers.NotPercentageKey | src/utils/helpers.jsx:60 | a key lacking, in both cases, one letter of "percentage" is not a percentage key |
| Helpers.PercentageKeys | src/utils/helpers.jsx:57-69 | the three percentage inputs are the keys the rounding loop skips by their names |
| Helpers.FixedInputKeys | src/utils/helpers.jsx:57-69 | the fixed allowances and deductions are not percentage keys, so they are rounded too |
| Helpers.AmountKeys | src/utils/helpers.jsx:57-69 | the six derived amounts are not percentage keys, so they are rounded |
| Helpers.AssignedInputs | src/utils/helpers.jsx:20-33 | after the assignments the coerced inputs stand under their keys |
| Helpers.AssignedAmounts | src/utils/helpers.jsx:35-55 | after the assignments the derived amounts stand under their keys |
| Helpers.MetricsFromAt | src/utils/helpers.jsx:57-69 | each key of the result other than `basicSalary` is the rounding rule applied to what was assigned there |
| Helpers.MetricsFromPercentages | src/utils/helpers.jsx:57-70 | `basicSalary` and the three percentages come back as coerced, not rounded |
| Helpers.MetricsFromFixed | src/utils/helpers.jsx:57-69 | the fixed allowances and deductions come back rounded to cents |
| Helpers.MetricsFromAllowances | src/utils/helpers.jsx:35-69 | house rent, medical and gross come back as basic pay times the percentages, and the sum, each rounded on its own |
| Helpers.MetricsFromDeductions | src/utils/helpers.jsx:49-69 | tax, total deductions and net come back derived, each rounded on its own |
| Helpers.MetricsFromOtherKeys | src/utils/helpers.jsx:16-69 | the result has the input's keys plus the calculator's; any other key keeps its value, except that a number under a non-percentage key is rounded |
| Helpers.PayrollMetricsValues | src/utils/helpers.jsx:15-73 | what `calculatePayrollMetrics` returns, in terms of its coerced inputs |
| Helpers.RoundEntryKeepsText | src/utils/helpers.jsx:57-59 | strings and nulls are not touched by the rounding loop |
| Helpers.DeriveNet | src/utils/helpers.jsx:49-55 | before rounding, net = gross − total deductions = gross·(100 − tax%)/100 − other deductions |
| Helpers.DeriveGross | src/utils/helpers.jsx:35-47 | before rounding, gross = basic·(100 + hra% + medical%)/100 + the four fixed allowances |
| Helpers.MissingInputsCountAsZero | src/utils/helpers.jsx:18-33 | an absent, empty, null or NaN input counts as 0 |
| Helpers.NetWithinOneCentFrom | src/utils/helpers.jsx:55-69 | since net, gross and deductions are rounded separately, net differs from gross − deductions by at most a cent |
| Helpers.NetWithinOneCent | src/utils/helpers.jsx:15-73 | the same bound for the calculator's own result |
| Helpers.RoundedDifference | src/utils/helpers.jsx:64 | rounding a difference and rounding its terms disagree by at most a cent |
| Helpers.InputOfNumber | src/utils/helpers.jsx:18-33 | a number-typed input is used as it is |
| Helpers.MetricsFromOwnKeys | src/utils/helpers.jsx:20-69 | the calculator's own keys depend only on the coerced inputs |
| Helpers.PayrollMetricsExample | src/utils/helpers.jsx:15-73 | worked example: basic 5000, HRA 40%, medical 10%, fixed 100 + 50, tax 10%, 20 deducted give 2000, 500, 7650, 765, 785 and 6865 |
| Helpers.InputsOfMetricsPercentages | src/utils/helpers.jsx:18-70 | reading a calculated record back gives the same basic pay and percentages |
| Helpers.InputsOfMetricsFixed | src/utils/helpers.jsx:24-64 | reading a calculated record back gives the fixed amounts rounded |
| Helpers.ReadInputsOfMetrics | src/utils/helpers.jsx:18-33 | the coerced inputs of a calculated record |
| Helpers.MetricsFromStable | src/utils/helpers.jsx:15-73 | recalculating from the same coerced inputs changes nothing |
| Helpers.PayrollMetricsIdempotent | src/utils/helpers.jsx:15-73 | recalculating a calculated record changes nothing, provided its fixed inputs were whole cents |
| Helpers.RecalculationCanChangeGross | src/utils/helpers.jsx:15-73 | without that proviso recalculation can change the gross: fixed allowances of 0.004 and 0.004 give a gross of 0.01, then of 0 |
| Helpers.RecalculatedGross | src/utils/helpers.jsx:24-47 | a recalculated gross is derived from the rounded fixed inputs |
| Helpers.GrossWithoutBasic | src/utils/helpers.jsx:35-47 | with no basic pay, gross is the sum of the fixed allowances |
| EmployeeUtils.NextEmployeeId | src/utils/employeeUtils.jsx:4-14 | a null or undefined list gives "E001"; any other list gives what the unguarded generator of `src/utils/helpers.jsx` gives |
| EmployeeUtils.NextEmployeeIdIsFresh | src/utils/employeeUtils.jsx:6-13 | the result equals no employee id of the list |
| EmployeeUtils.NextEmployeeIdWithoutIds | src/utils/employeeUtils.jsx:5-13 | a missing list, or one without a usable `E…` id, gives "E001" |
| Api.WithId | src/api.js:198-201 | `{...r, [key]: id}`: the new id wins over any supplied one, and every other field is kept |
| Api.RemoveMatching | src/api.js:217-219 | `filter` keeps exactly the records that do not match, and no new ones |
| Api.FindFirst | src/api.js:238-240 | `findIndex`: the first matching index, or −1 (`None`) when no record matches |
| Api.StoredOrEmpty | src/api.js:193-196 | a storage key never written reads as `[]`, a written one as its list |
| Api.MergeMatchingAt | src/api.js:209-211 | `updateEmployee`'s `map` keeps the length, merges the data over each matching record, and leaves the others as they were |
| Api.MergeMatchingUnknown | src/api.js:207-214 | an id nobody holds leaves the collection as it was, without error |
| Api.RemoveMatchingAppend | src/api.js:215-222 | removal keeps the survivors in order: it distributes over concatenation |
| Api.RemoveMatchingAbsent | src/api.js:261-266 | removing an id nobody holds changes nothing |
| Api.RemoveMatchingCount | src/api.js:215-222 | exactly the matching records go: the length drops by the number of matches |
| Api.FindRecordFirst | src/api.js:229-234 | `find(...) \|\| null` is null exactly when nothing matches, and otherwise the first match |
| Api.DisbursementDateIsLocked | src/api.js:245-249 | the schema lookup finds the `disbursementDate` field, and its flag locks the date |
| Api.UpdatedPayrollFields | src/api.js:242-252 | on update every submitted field wins over the original, except a truthy original disbursement date, which is kept |
| Api.UpsertPayrollShape | src/api.js:235-260 | an existing payroll for the employee is replaced in place at the first match, with the same length; otherwise the input, stamped with a fresh `internalId`, is appended |
| Api.UpsertKeepsOnePerEmployee | src/api.js:235-260 | when the payrolls hold at most one record per `employeeId`, they still do after an upsert: an existing record is replaced in place with its `employeeId` kept, and a new one is appended only when no record matched |
| Api.RemoveKeepsOnePerEmployee | src/api.js:261-266 | deleting the payrolls of an employee keeps the collection at most one record per `employeeId` |
| Api.UpsertThenFind | src/api.js:229-260 | after an upsert, looking the employee up finds the saved record |
| Api.FindFirstAfterUpdate | src/api.js:238-253 | replacing the first match by a record with the same `employeeId` keeps it the first match |
| Api.FindFirstAppended | src/api.js:238-256 | a record appended when nothing matched becomes the first match |
| Api.DefaultPayrollColumns | src/api.js:281-293 | the default columns are exactly the fields flagged always-visible or highly visible, or named in the list of four |
| Api.PinnedColumns | src/api.js:296-311 | `employeeId` put in front when missing, then de-duplicated: no duplicates, `employeeId` present (first when it was missing), no key lost or added |
| Api.PinnedColumnsOfPinned | src/api.js:296-299 | a duplicate-free list holding `employeeId` comes back unchanged |
| Api.FindPinnedEmployeeId | src/api.js:302-304 | the `find` for an always-visible `employeeId` field returns one, or proves there is none |
| Api.EmployeeIdIsPinned | src/api.js:302-304 | in the payroll schema that `find` succeeds, so saving always pins `employeeId` |
| Api.DefaultPayrollColumnsAppend | src/api.js:281-293 | the default columns keep schema order: they distribute over concatenation |
| Api.RecordStore.constructor | src/api.js:191 | an empty storage |
| Api.RecordStore.FetchEmployees | src/api.js:193-196 | `[]` when nothing is stored, else the stored list |
| Api.RecordStore.AddEmployee | src/api.js:197-206 | appends exactly one record: the input stamped with the fresh `internalId`, which overrides a supplied one; the other collections and preferences are unchanged |
| Api.RecordStore.UpdateEmployee | src/api.js:207-214 | merges the data over every record with that `internalId`, others unchanged (an unknown id changes nothing); returns `{...data, internalId}`, not the merged record |
| Api.RecordStore.DeleteEmployee | src/api.js:215-222 | removes exactly the records with that `internalId`, keeps the rest in order, and leaves the payrolls alone (no cascade) |
| Api.RecordStore.FetchPayrolls | src/api.js:225-228 | `[]` when nothing is stored, else the stored list |
| Api.RecordStore.FetchPayrollByEmployeeId | src/api.js:229-234 | the first payroll with that `employeeId`, or null |
| Api.RecordStore.AddOrUpdatePayroll | src/api.js:235-260 | the new payroll collection and the saved record are the upsert of `UpsertPayrollShape`; nothing else changes |
| Api.RecordStore.DeletePayrollByEmployeeId | src/api.js:261-266 | removes every payroll of that employee; none is a no-op |
| Api.RecordStore.GetVisibleEmployeeColumns | src/api.js:268-271 | the saved list, or null |
| Api.RecordStore.SaveVisibleEmployeeColumns | src/api.js:272-274 | stores the list as given, nothing else changes |
| Api.RecordStore.GetVisiblePayrollColumns | src/api.js:275-300 | the saved or default list, pinned and de-duplicated: no duplicates, `employeeId` present |
| Api.RecordStore.SaveVisiblePayrollColumns | src/api.js:301-313 | stores the list pinned and de-duplicated |
| Api.SaveThenGetPayrollColumns | src/api.js:275-313 | reading back a saved payroll column list gives the saved list |
| FormChecks.DigitsOf | src/modals/EmployeeRecordModal.jsx:73 | `replace(/\D/g, "")` keeps exactly the digits, in order |
| FormChecks.ParsedIfNumber | src/modals/EmployeeRecordModal.jsx:40 | only a non-empty value of a number field is changed, and only into a number or NaN |
| FormChecks.FormatCheck | src/modals/EmployeeRecordModal.jsx:64-78 | the format check touches only its own key, and only when that key has no error yet |
| FormChecks.FormatCheckPasses | src/modals/EmployeeRecordModal.jsx:64-78 | empty text, and well-formed text, draw no format error |
| FormChecks.FormatCheckFails | src/modals/EmployeeRecordModal.jsx:64-78 | a key without an error gets the email or the phone message when its non-empty text breaks that rule |
| FormChecks.DigitsOfAppend | src/modals/EmployeeRecordModal.jsx:73 | the digits of a concatenation are the digits of each part |
| FormChecks.DigitsOfDigits | src/modals/EmployeeRecordModal.jsx:73 | text made of digits only is kept as it is |
| FormChecks.EmailNeedsAt | src/modals/EmployeeRecordModal.jsx:68 | text without `@` never matches `/\S+@\S+\.\S+/` |
| FormChecks.EmailOfParts | src/modals/EmployeeRecordModal.jsx:68 | `name@host.tld` with non-empty parts free of white space matches |
| FormChecks.FilledKeySplit | src/modals/EmployeeRecordModal.jsx:23-30 | the keys the fill loop writes, one field at a time |
| FormChecks.FillKeys | src/modals/EmployeeRecordModal.jsx:22-30 | the filled record has the starting keys and those of the fields the loop fills |
| FormChecks.FillAt | src/modals/EmployeeRecordModal.jsx:23-30 | with distinct keys, a filled field holds its start value and an unfilled key keeps its starting value |
| FormChecks.Apply | src/modals/EmployeeRecordModal.jsx:56-78 | one pass of `validate` adds an error only under the field's key, exactly when the field fails |
| FormChecks.ApplyMessage | src/modals/EmployeeRecordModal.jsx:56-78 | the required message first (format rules never apply to blank text), otherwise the format message; at most one message per field |
| FormChecks.FailingKeySplit | src/modals/EmployeeRecordModal.jsx:49-79 | the failing keys, one field at a time |
| FormChecks.CollectKeys | src/modals/EmployeeRecordModal.jsx:47-82 | a key carries an error exactly when some field under it fails |
| FormChecks.CollectEmptyIff | src/modals/EmployeeRecordModal.jsx:80-81 | no errors exactly when no checked field fails |
| FormChecks.CollectAt | src/modals/EmployeeRecordModal.jsx:47-82 | with distinct keys, each field's error is the one it would get on its own |
| EmployeeRecordModal.NewFormData | src/modals/EmployeeRecordModal.jsx:21-31 | a new record holds the fresh `internalId`, `employeeId` set to the proposed id, every other field at its default or "", and no other key |
| EmployeeRecordModal.FieldErrors | src/modals/EmployeeRecordModal.jsx:47-82 | the error of each field: none for the system `internalId`; "cannot be empty" for a required blank field (on creation every key but `internalId`, on edit the `isRequired` ones); else the email or phone message; else none |
| EmployeeRecordModal.CreationStricterThanEdit | src/modals/EmployeeRecordModal.jsx:56-58 | any key but `internalId` that fails on edit fails on creation |
| EmployeeRecordModal.EmployeeForm.constructor | src/modals/EmployeeRecordModal.jsx:5-14 | empty form data and errors |
| EmployeeRecordModal.EmployeeForm.Open | src/modals/EmployeeRecordModal.jsx:16-35 | the opening effect sets the initial form data and clears the errors |
| EmployeeRecordModal.EmployeeForm.HandleChange | src/modals/EmployeeRecordModal.jsx:37-45 | only that key changes, a number field's non-empty value is parsed, and a pending error on the key is cleared |
| EmployeeRecordModal.EmployeeForm.Validate | src/modals/EmployeeRecordModal.jsx:47-82 | the errors are those of `FieldErrors`; valid exactly when there are none, that is when no field fails |
| EmployeeRecordModal.EmployeeForm.HandleSubmit | src/modals/EmployeeRecordModal.jsx:84-89 | `onSave` receives the form data exactly when there are no errors |
| RecordModal.NewFormData | src/modals/RecordModal.jsx:21-31 | a new record fills every field: `employeeId` with the proposed id, others with their default or ""; `id` is fresh unless a field of that key overwrote it; no other key |
| RecordModal.FieldErrors | src/modals/RecordModal.jsx:47-82 | the error of each field: on creation every blank key but `id` "cannot be empty", on edit a blank `isRequired` one "is required"; else the email or phone message; else none |
| RecordModal.CreationStricterThanEdit | src/modals/RecordModal.jsx:54-62 | any key but `id` that fails on edit fails on creation |
| RecordModal.RecordForm.constructor | src/modals/RecordModal.jsx:5-14 | empty form data and errors |
| RecordModal.RecordForm.Open | src/modals/RecordModal.jsx:16-35 | the opening effect sets the initial form data and clears the errors |
| RecordModal.RecordForm.HandleChange | src/modals/RecordModal.jsx:37-45 | only that key changes, a number field's non-empty value is parsed, and a pending error on the key is cleared |
| RecordModal.RecordForm.Validate | src/modals/RecordModal.jsx:47-82 | the errors are those of `FieldErrors`; valid exactly when there are none |
| RecordModal.RecordForm.HandleSubmit | src/modals/RecordModal.jsx:84-89 | `onSave` receives the form data exactly when there are no errors |
| PayrollRecordModal.FillFieldsAt | src/modals/PayrollRecordModal.jsx:26-44 | after the fill loop each in-form field holds its starting value, and a key no in-form field has keeps the value it started with |
| PayrollRecordModal.FillFieldsKeys | src/modals/PayrollRecordModal.jsx:26-44 | the filled data has exactly the starting keys plus the in-form fields' keys |
| PayrollRecordModal.InitialFormDataField | src/modals/PayrollRecordModal.jsx:20-46 | an in-form field starts at the edited record's value only when editing an existing record outside the mandatory setup and the record has the key; otherwise it starts at its default, else "" |
| PayrollRecordModal.InitialFormDataShape | src/modals/PayrollRecordModal.jsx:21-47 | `basicSalary` always starts as a number, `internalId` is always set, and the form holds no key besides `employeeId`, `internalId`, `basicSalary` and the in-form fields |
| PayrollRecordModal.InitialFormDataInternalId | src/modals/PayrollRecordModal.jsx:36-37 | when editing, a set internal id is kept; in the initial setup the id is the fresh one |
| PayrollRecordModal.ChangedValue | src/modals/PayrollRecordModal.jsx:67-71 | a non-empty value for a number field is stored parsed; a value for any other key is stored as given |
| PayrollRecordModal.ErrorsOfKeys | src/modals/PayrollRecordModal.jsx:80-110 | a key carries an error exactly when some schema field under that key fails its check |
| PayrollRecordModal.ValidIff | src/modals/PayrollRecordModal.jsx:111-112 | the form is valid exactly when no schema field has an error |
| PayrollRecordModal.ReadOnlyDateExempt | src/modals/PayrollRecordModal.jsx:96-102 | a blank read-only disbursement date is not an error when the edited record already has a date |
| PayrollRecordModal.BlankRequiredReported | src/modals/PayrollRecordModal.jsx:90-105 | outside that exemption, a blank required in-form field is reported as "<label> is required." |
| PayrollRecordModal.FilledFieldChecked | src/modals/PayrollRecordModal.jsx:106-108 | a filled-in required field is reported exactly when it is a number field whose text does not parse, with "<label> must be a valid number." |
| PayrollRecordModal.SkippedFieldsNeverReported | src/modals/PayrollRecordModal.jsx:82 | calculated, out-of-form, hidden and optional fields are never reported |
| PayrollRecordModal.PayrollDateReadOnly | src/modals/PayrollRecordModal.jsx:180-188 | with the payroll schema the disbursement date is read-only on an existing record and editable in the initial setup |
| PayrollRecordModal.PayloadOfFreshMetrics | src/modals/PayrollRecordModal.jsx:128-130 | when the calculated fields are up to date, spreading the form data first adds nothing: the calculator's result already holds every form key, so the payload is that result with `employeeId` and the internal id stamped on |
| PayrollRecordModal.PayloadIds | src/modals/PayrollRecordModal.jsx:128-136 | the payload carries the component's employee id and a truthy internal id; every other key comes from the calculated fields, else from the form |
| PayrollRecordModal.PayrollForm.constructor | src/modals/PayrollRecordModal.jsx:15-18 | empty form data, calculated fields and errors; not in the initial-setup state |
| PayrollRecordModal.PayrollForm.InitializeFormData | src/modals/PayrollRecordModal.jsx:20-50 | sets the initial-setup flag and the initial form data, and clears the errors |
| PayrollRecordModal.PayrollForm.RecalculateMetrics | src/modals/PayrollRecordModal.jsx:58-63 | non-empty form data gets its calculated fields from the payroll calculator; nothing else changes |
| PayrollRecordModal.PayrollForm.HandleChange | src/modals/PayrollRecordModal.jsx:65-77 | only the changed key of the form changes, and a pending error on that key is cleared to null |
| PayrollRecordModal.PayrollForm.Validate | src/modals/PayrollRecordModal.jsx:79-113 | the errors become those of the schema's fields, and the form is valid exactly when no field fails |
| PayrollRecordModal.PayrollForm.HandleAttemptClose | src/modals/PayrollRecordModal.jsx:115-123 | closing is refused exactly during a mandatory initial setup |
| PayrollRecordModal.PayrollForm.HandleSubmit | src/modals/PayrollRecordModal.jsx:125-139 | `onSave` receives the payload exactly when validation finds no error |
| ListView.TotalPages | src/pages/PayrollPage.jsx:148 | `Math.ceil(n / 10)`: the fewest pages of ten that hold `n` rows, 0 exactly when there are no rows |
| ListView.PageSlice | src/pages/PayrollPage.jsx:156-159 | a page never holds more than ten rows |
| ListView.PageSliceRows | src/pages/HomePage.jsx:514-518 | page `p` holds rows `(p - 1) * 10` up to `p * 10`, as far as they exist, and is empty past the end |
| ListView.PageZeroEmpty | src/pages/HomePage.jsx:514-518 | page 0 shows no row |
| ListView.EveryRowOnItsPage | src/pages/HomePage.jsx:492-518 | every row appears on the page its index gives, at the place its index gives, and that page exists |
| ListView.FilterRows | src/pages/HomePage.jsx:461 | the filter keeps exactly the rows that pass, never more rows than it got |
| ListView.FilterRowsAppend | src/pages/HomePage.jsx:461 | the filter keeps the rows' order: it distributes over concatenation |
| ListView.FilterRowsAll | src/pages/HomePage.jsx:461 | rows that all pass come back unchanged |
| ListView.Without | src/pages/HomePage.jsx:363 | removing a key leaves exactly the other keys |
| ListView.WithoutAbsent | src/pages/HomePage.jsx:363 | removing a key that is not there changes nothing |
| ListView.Toggled | src/pages/HomePage.jsx:361-365 | the toggle flips the presence of its key and keeps every other key as it was |
| ListView.ToggleTwiceRestores | src/pages/HomePage.jsx:361-365 | showing a hidden column and hiding it again restores the list |
| PayrollPage.PinnedKeys | src/pages/PayrollPage.jsx:82-86 | the pinning loop adds exactly the missing always-visible keys, in front of the keys it was given |
| PayrollPage.ToggledColumnsKeys | src/pages/PayrollPage.jsx:74-88 | after an accepted toggle there are no duplicates, every always-visible key is shown, the toggled key flips unless it is always visible, and the rest are kept |
| PayrollPage.LockedAlwaysVisible | src/pages/PayrollPage.jsx:63-72 | an always-visible column that is showing cannot be hidden; one that is not showing comes back |
| PayrollPage.Enriched | src/pages/PayrollPage.jsx:91-101 | each row gets its employee's name under `employeeFullName` and keeps every other key |
| PayrollPage.EnrichedName | src/pages/PayrollPage.jsx:93-98 | the name is the `fullName` of the first employee with the row's `employeeId`, and "N/A" when there is none |
| PayrollPage.FilteredRows | src/pages/PayrollPage.jsx:103-119 | an empty term keeps every row; otherwise the search keeps exactly the matching rows |
| PayrollPage.NameMatchFound | src/pages/PayrollPage.jsx:107-116 | a row whose employee name contains the term is found exactly when the schema has at least one field |
| PayrollPage.NotHidden | src/pages/PayrollPage.jsx:122-124 | exactly the fields that are not hidden |
| PayrollPage.DisplayKeys | src/pages/PayrollPage.jsx:126-133 | the display keys have no duplicates and are exactly the visible keys and the always-visible keys of non-hidden fields |
| PayrollPage.ColumnsToDisplay | src/pages/PayrollPage.jsx:121-146 | each column is the first non-hidden field of its key; the columns are exactly the shown keys, once each, with `employeeId` first and the rest in schema order |
| PayrollPage.ClampedPageInRange | src/pages/PayrollPage.jsx:148-154 | the clamped page lies between 1 and the page count when there are rows and is 1 when there are none; a page in range is kept; clamping twice is clamping once |
| PayrollPage.PayrollView.constructor | src/pages/PayrollPage.jsx:10-25 | the page starts on page 1, holding the schema and visible keys it loaded |
| PayrollPage.PayrollView.HandleColumnVisibilityChange | src/pages/PayrollPage.jsx:62-89 | the toggle is refused exactly for a showing always-visible column and leaves the keys alone; otherwise the keys become the toggled, pinned, de-duplicated list |
| PayrollPage.PayrollView.ClampPage | src/pages/PayrollPage.jsx:149-154 | the current page becomes the clamped page; the visible keys are unchanged |
| HomePage.DefaultKeysAmong | src/pages/HomePage.jsx:326-330 | exactly the schema keys that are one of the four default columns, never more keys than the schema has |
| HomePage.DefaultKeysAmongAppend | src/pages/HomePage.jsx:326-330 | the default keys keep schema order: the filter distributes over concatenation |
| HomePage.DefaultKeysAmongAll | src/pages/HomePage.jsx:326-330 | keys that are all default columns are kept as they are |
| HomePage.DefaultKeysAmongNone | src/pages/HomePage.jsx:326-330 | keys none of which is a default column give none |
| HomePage.DefaultColumnKeysChoice | src/pages/HomePage.jsx:326-335 | the defaults are the schema's default-column keys when it has any, and otherwise its first four keys (all when fewer); only an empty schema gives no column |
| HomePage.LegacyDefaultColumns | src/pages/HomePage.jsx:25-49 | with the page's own schema the defaults are `employeeId`, `fullName`, `department` and `status`, in that order |
| HomePage.VisibleOnLoad | src/pages/HomePage.jsx:320-335 | the saved keys when there are any, else the defaults |
| HomePage.ReplaceMatching | src/pages/HomePage.jsx:391-393 | same length; each employee with the id is replaced by the saved record, every other one is kept |
| HomePage.ReplaceAgreesWithMerge | src/pages/HomePage.jsx:70-85 | the page's replaced list agrees with the store's merged list when the submitted data holds every key of each record it updates and no other id |
| HomePage.GuardChecksFirstMatchOnly | src/pages/HomePage.jsx:412-425 | the guard looks at the first employee with the id only: a terminated first match lets a later "Active" one with the same id be deleted with it |
| HomePage.SearchFinds | src/pages/HomePage.jsx:458-471 | a non-empty term found, ignoring case, in some field value of a row finds the row; every row found is a row with such a value |
| HomePage.ColumnsToDisplay | src/pages/HomePage.jsx:473-477 | exactly the schema fields whose key is visible, never more than the schema has |
| HomePage.ColumnsToDisplayAppend | src/pages/HomePage.jsx:473-477 | the displayed columns keep schema order whatever the order of the visible keys |
| HomePage.StatusCountsAtMostTotal | src/pages/HomePage.jsx:479-490 | the three status counts never add up to more than the number of employees |
| HomePage.ClampedPageInRange | src/pages/HomePage.jsx:492-512 | from a page that is not negative the clamp reaches a real page (1 when there are no rows); a page in range is kept; a negative page is left alone; clamping twice is clamping once |
| HomePage.LocalStore.constructor | src/pages/HomePage.jsx:24-55 | the store serves the page's own schema and holds the given employee list and saved keys |
| HomePage.LocalStore.FetchEmployeeSchema | src/pages/HomePage.jsx:25-50 | returns the page's own eight-field schema |
| HomePage.LocalStore.FetchEmployees | src/pages/HomePage.jsx:51-55 | the stored list, or `[]` when nothing is stored |
| HomePage.LocalStore.AddEmployee | src/pages/HomePage.jsx:56-69 | appends the input stamped with a fresh `id` and returns it; the saved keys are untouched |
| HomePage.LocalStore.UpdateEmployee | src/pages/HomePage.jsx:70-85 | merges the data over every record with the id, and returns the data stamped with that id |
| HomePage.LocalStore.DeleteEmployee | src/pages/HomePage.jsx:86-95 | drops every record with the id |
| HomePage.HomeView.constructor | src/pages/HomePage.jsx:297-311 | the page starts empty on page 1 with no search term and no current record |
| HomePage.HomeView.LoadData | src/pages/HomePage.jsx:313-350 | loads the schema, the saved or default columns and the employees, and computes the next employee id from them |
| HomePage.HomeView.LoadColumns | src/pages/HomePage.jsx:317-336 | the first half of `loadData`: the page's schema, then the saved keys when there are any, else the defaults; the rest of the page is unchanged |
| HomePage.HomeView.LoadEmployees | src/pages/HomePage.jsx:338-340 | the second half: the stored employees and the next employee id computed from them; nothing else changes |
| HomePage.HomeView.SaveVisibleColumns | src/pages/HomePage.jsx:352-359 | the keys are saved exactly when both the schema and the keys are non-empty |
| HomePage.HomeView.HandleColumnVisibilityChange | src/pages/HomePage.jsx:361-365 | the visible keys become the toggled list; nothing else changes |
| HomePage.HomeView.HandleOpenRecordModal | src/pages/HomePage.jsx:367-373 | sets the current record; opening a new one recomputes the next employee id |
| HomePage.HomeView.HandleSaveEmployee | src/pages/HomePage.jsx:380-409 | with a current record holding a truthy `id` the store merges and the page replaces; otherwise both append the input stamped with a fresh id; the next id follows the new list and the modal closes |
| HomePage.HomeView.SaveUpdated | src/pages/HomePage.jsx:386-402 | the update branch: the store merges the data over the records with that id, the page replaces them with the data stamped with the id, the next id follows the new list and the modal closes |
| HomePage.HomeView.SaveAdded | src/pages/HomePage.jsx:394-402 | the add branch: store and page both append the input stamped with the fresh id, the next id follows the new list and the modal closes |
| HomePage.HomeView.ShowEmployees | src/pages/HomePage.jsx:399-400 | the page's list becomes the saved list and the next id is the one generated from it |
| HomePage.HomeView.HandleDeleteEmployee | src/pages/HomePage.jsx:411-450 | refused exactly when the first employee with the id is "Active" or "On Leave"; otherwise carried out exactly when confirmed, from both the store and the page, with the next id recomputed; else nothing changes |
| HomePage.HomeView.ClampPage | src/pages/HomePage.jsx:494-512 | the current page becomes the clamped page for the filtered rows |
| PaginationControls.Previous | src/components/PaginationControls.jsx:6-10 | moves exactly when past the first page, to the page before |
| PaginationControls.Next | src/components/PaginationControls.jsx:12-16 | moves exactly when before the last page, to the page after |
| PaginationControls.PreviousNextStayInRange | src/components/PaginationControls.jsx:6-16 | from a real page both handlers reach a real page, and each undoes the other |
| PaginationControls.Range | src/components/PaginationControls.jsx:44-46 | the pages from `from` to `to` in order, none when `to < from` |
| PaginationControls.WindowBounds | src/components/PaginationControls.jsx:30-38 | beyond seven pages the window lies strictly between the first and last page, holds four or five pages, and holds the current page when that is strictly between them |
| PaginationControls.LargePageNumbersAt | src/components/PaginationControls.jsx:28-52 | beyond seven pages: page 1, an optional "...", the window, an optional "...", the last page, entry by entry |
| PaginationControls.SmallPageNumbers | src/components/PaginationControls.jsx:23-26 | up to seven pages, the list is every page in order |
| PaginationControls.LargePageNumbers | src/components/PaginationControls.jsx:28-52 | beyond seven pages the list starts at 1 and ends at the last page, its pages are real and increasing, neighbouring pages are consecutive, "..." stands exactly where pages are skipped, at most nine entries, and the current page is shown |
| PaginationControls.PageNumbersEnds | src/components/PaginationControls.jsx:18-55 | for any page count of at least one, the list starts at page 1, ends at the last page and shows the current page |
| PaginationControls.PushPages | src/components/PaginationControls.jsx:44-46 | the push loop appends exactly the pages from `from` to `to` |
| PaginationControls.GetPageNumbers | src/components/PaginationControls.jsx:18-55 | the list is the one `PageNumbers` describes |
| PaginationControls.Controls | src/components/PaginationControls.jsx:4 | nothing is rendered for one page or none; otherwise the page list |
| PayrollDetailModal.AmountFieldKey | src/modals/PayrollDetailModal.jsx:80-87 | the house-rent, medical and income-tax percentages map to their amounts, and no other key maps to anything |
| PayrollDetailModal.AmountFieldKeyInjective | src/modals/PayrollDetailModal.jsx:80-87 | distinct percentages have distinct amounts, none of them the basic salary |
| PayrollDetailModal.PercentageItem | src/modals/PayrollDetailModal.jsx:140-147 | a percentage item carries the field's percentage, and its amount exactly when the record has one, which is then marked processed |
| PayrollDetailModal.ItemsFromFields | src/modals/PayrollDetailModal.jsx:89-193 | at most one item per field, each the item of a listed field with a present value, in schema order |
| PayrollDetailModal.ItemsNotRelisted | src/modals/PayrollDetailModal.jsx:143-175 | every amount attached to a percentage item is marked processed, and no later amount item lists it again |
| PayrollDetailModal.StepGrows | src/modals/PayrollDetailModal.jsx:146 | a pass only adds to the processed amount keys |
| PayrollDetailModal.StepItem | src/modals/PayrollDetailModal.jsx:120-190 | the item one pass adds is the field's own, and a plain amount item never has a processed key |
| PayrollDetailModal.CorrectedEarningsHoldNoTax | src/modals/PayrollDetailModal.jsx:148-157 | with the corrected rule no earnings amount other than the basic salary is a tax field |
| PayrollDetailModal.ZeroValues | src/modals/PayrollDetailModal.jsx:110-118 | a numeric 0 under a percentage key is still listed; under any other key it is skipped |
| PayrollDetailModal.IncomeTaxAmountWords | src/modals/PayrollDetailModal.jsx:148-153 | the key `incomeTaxAmount` contains "amount" and "tax" but neither "allowance" nor "percentage" |
| PayrollDetailModal.IncomeTaxAmountField | src/api.js:167-173 | the schema's income-tax amount field is calculated and neither hidden, system nor kept out of the form |
| PayrollDetailModal.IncomeTaxAmountNotExcluded | src/modals/PayrollDetailModal.jsx:94-107 | that field passes the exclusion test |
| PayrollDetailModal.TaxAmountListedAsEarning | src/modals/PayrollDetailModal.jsx:148-157 | as written, a non-zero income-tax amount is listed among the earnings; the corrected rule leaves it out |
| PayrollDetailModal.TaxAmountListedWithPayrollSchema | src/modals/PayrollDetailModal.jsx:89-193 | as written, with the whole payroll schema, a record with a non-zero `incomeTaxAmount` has that amount among its displayed earnings |
| PayrollDetailModal.IncomeTaxPctNotEarnings | src/modals/PayrollDetailModal.jsx:134-139 | `incomeTaxPercentage` is not an earnings percentage: it names no allowance |
| PayrollDetailModal.EarningsNeverProcessTax | src/modals/PayrollDetailModal.jsx:134-147 | the earnings pass never marks `incomeTaxAmount` as processed, so nothing stops it being listed |
| PayrollDetailModal.ItemsPrefix | src/modals/PayrollDetailModal.jsx:93-191 | the walk only appends: the items of a prefix of the schema begin the items of the whole schema |
| PayrollDetailModal.TaxAmountStepListed | src/modals/PayrollDetailModal.jsx:148-157 | as written, the earnings test lists an unprocessed non-zero `incomeTaxAmount` with its amount |
| PayrollDetailModal.CalculatedTaxAmountListed | src/modals/PayrollDetailModal.jsx:148-157 | the same for any calculated tax amount that names no allowance or percentage |
| PayrollDetailModal.GetDisplayItems | src/modals/PayrollDetailModal.jsx:89-193 | the loop's items are the displayed items: those of the code as written, or of the corrected rule when the tax amount is excluded |

## Left out

- Floating point: numbers are exact reals. `toFixed(2)` rounding is modelled as exact rounding half away from zero, so IEEE representation effects are not captured.
- `parseFloat`'s `Infinity` and `-Infinity` literals are not modelled: such text parses as NaN here.
- `toLowerCase` maps ASCII letters only. Unicode case mapping is not modelled.
- Number-to-text conversion (`String(x)` of a number, `toLocaleString`) is host formatting. The search lemmas take it as a `show` parameter.
- `localStorage` and `JSON.stringify`/`JSON.parse` are not modelled. The stored lists are the store's fields, and a stored list always reads back as written.
- `async`/`await` and Promise scheduling are not modelled. Each handler runs to completion as one method, and the `catch` branches (error messages, `console.error`) are not modelled since the modelled store never fails.
- React rendering is not modelled: JSX, loading flags, modal open/close flags and icon choice. Effects are methods the caller runs when their dependencies change.
- `window.confirm` is a boolean input. `alert` is a `refused` result, and its message text is not modelled.
- `generateInternalId` uses `Math.random`, so it is a `freshId` parameter. Its `emp_internal_` format is not modelled.
- The order of a record's keys (JavaScript insertion order) is not modelled, because a record is a map.
- The payroll page sorts its columns. The model builds that order by walking the schema; `PayrollPage.ColumnsToDisplay` states the order the comparator defines.
- The payroll detail view's currency, percentage and date formatting (src/modals/PayrollDetailModal.jsx:50-78), its status icon and its charts are presentation and are not modelled.
- The written design describes an employee delete that refuses "Active" and "On Leave" employees and also deletes their payroll. The code behaves differently, and the model follows the code:
  - `deleteEmployee` in src/api.js only filters by internal id;
  - the status guard is on the home page;
  - no modelled code removes the payroll on delete.
- The written design describes the next employee id as built only from ids matching `E` followed by digits. The code instead takes any string starting with `E` whose remainder `parseInt` reads, and the model follows the code.
- Helpers.PayrollMetricsIdempotent: proved only when the fixed allowances and deductions are whole cents. The written design promises idempotence for every input, but the code rounds those inputs on the first pass, and `Helpers.RecalculationCanChangeGross` exhibits an input whose recalculated gross changes.
- HomePage.ClampedPageInRange: it does not promise a real page for a negative current page, because the home page's effect leaves such a page as it is.

## Findings

| source | as written | input that shows it | evidently intended | confidence | as-written member | corrected member |
|---|---|---|---|---|---|---|
| src/modals/PayrollDetailModal.jsx:148-157 | the earnings test accepts any calculated field whose key contains "amount", so the calculated `incomeTaxAmount` is listed among the earnings as well as beside its percentage among the deductions | a payroll record whose `incomeTaxAmount` is non-zero, shown with the schema of src/api.js | the income-tax amount is a deduction and is not listed among the earnings | not executed | PayrollDetailModal.TaxAmountListedWithPayrollSchema | PayrollDetailModal.CorrectedEarningsHoldNoTax |
