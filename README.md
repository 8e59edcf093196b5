# Garment-factory production ledger, modelled in Dafny

The application manages three kinds of records for a sewing floor: employees, production
*inputs* (cut pieces handed to a sewing line, one row per size/shade with a quantity) and
production *outputs* (finished pieces, one row per size/shade carrying the quantity that came
in, the quantity shipped and the balance still outstanding). Records live in three ordered
collections in browser storage and are saved by id (replace the first record with that id,
or append) and deleted by id (keep every other record, in order).

The heart of the system is the output form's reconciliation. For an output record, the
six fields line number, buyer, PO, style, PF and colour form a *match key*. The inputs with
the same key form the record's *cohort*. Autofill sums the cohort's input quantities per
`size-shade` key. It also sums what the *other* outputs of the cohort (every output with
that key except the record being edited) already shipped per key. It then seeds one row per
distinct key with `balance = input - claimed - shipped here`. A single edit of the shipped
quantity recomputes that row's balance. How it counts the other outputs against the row
differs from autofill. The totals are the sums of the row columns.

Modules, one per source file:

| file | module | source |
|---|---|---|
| `types.dfy` | `Types` | `types.ts`: the record shapes as datatypes, and the match key |
| `wrappers.dfy` | `Wrappers` | `Option` |
| `numbers.dfy` | `JsNumber` | `Number(text) \|\| 0` on the texts the forms read |
| `lists.dfy` | `Lists` | `[...new Set(...)]`, `filter((_, i) => i !== index)`, `reduce` sums |
| `db.dfy` | `RecordStore` | `services/db.ts`: upsert, delete, reading a collection, seeding; a `Storage` class whose fields are the three collections |
| `input_form.dfy` | `InputForm` | `components/modals/InputFormModal.tsx` |
| `employee_form.dfy` | `EmployeeForm` | `components/modals/EmployeeFormModal.tsx` |
| `output_form.dfy` | `OutputForm` | `components/modals/OutputFormModal.tsx` |

Modelling choices:

- **Imperative code stays imperative.** Each `saveX` is a method of `Storage`: a `findIndex`, then an assignment or an append. The two `forEach` passes of `autoFillData` are nested `while` loops that build a dictionary. The `previouslyOutputted +=` loop of `handleOutputQtyChange` is a loop as well. Each such method is proved equal to a function (`Upsert`, `InputDict`/`OutputDict`, `AutoFilled`, `OutputQtyEdited`), and the properties are lemmas about that function.
- **JavaScript objects used as dictionaries** are `Dict(order, values)`. `order` is the `Object.keys` order. Every key the form builds contains `-`, so no key looks like an array index, and keys come out in insertion order.
- **Storage.** Each storage key holds one of three `Slot` states:
  - `Missing`: the key is absent or holds the empty text; both are falsy for `if (!data)`;
  - `Unreadable`: the text does not parse;
  - `Stored(records)`.
- **Autofill with a prior record.** The autofill effect only fires when no record was passed in (`OutputFormModal.tsx:121`). As a result, the branch that carries a prior record's shipped quantity into the new rows (`OutputFormModal.tsx:107-108`) never sees a record when the page runs. Every row seeded from the page therefore ships 0 and has balance `input - claimed`. `AutoFilled` still takes the prior record as a parameter, to model the function as written. `FreshAutoFillSeedsZero` states what the page actually does.
- **Code quirks are modelled as written:**
  - `key.split('-')` keeps only the first two pieces, so a size or shade containing `-` is misread (`HyphenatedSizeIsMisread`);
  - the single-edit path counts only the *first* matching row of each other output (`EditCountsFirstRowOnly`);
  - negative balances are kept (`NegativeBalanceKept`).

## Model

| member | source | states |
|---|---|---|
| OutputForm.KeyComplete | components/modals/OutputFormModal.tsx:72-73 | all six key fields are non-empty (truthy); `AutoFillGuard` states that an incomplete key leaves the form unchanged |
| OutputForm.MatchingInputs | components/modals/OutputFormModal.tsx:74-77 | every result is a stored input equal to the key on all six fields, and every such input is kept |
| OutputForm.OtherOutputs | components/modals/OutputFormModal.tsx:81-84 | the claimants are exactly the stored outputs with the same six key fields and a different id |
| OutputForm.FirstMatchingInput | components/modals/OutputFormModal.tsx:115 | the cohort's first input is the first input in store order having the key |
| OutputForm.SaveKeepsOtherOutputs | components/modals/OutputFormModal.tsx:81-84 | saving the edited record (an upsert by its id) never changes the set of claimants: the record with the edited id never counts against itself |
| OutputForm.DeleteKeepsOtherOutputs | components/modals/OutputFormModal.tsx:81-84 | deleting the edited id from the store does not change the claimants either |
| OutputForm.RowKey | components/modals/OutputFormModal.tsx:89 | the row key joins size and shade with a hyphen; `KeyRoundTrip` and `KeyInjective` state that, for hyphen-free texts, it is split back exactly and keys are unique per pair |
| OutputForm.SplitKey | components/modals/OutputFormModal.tsx:103 | neither piece holds a hyphen, and the size is a prefix of the key; `KeyRoundTrip` and `HyphenatedSizeIsMisread` state when the split gives back the pair and when it does not |
| OutputForm.FirstPiece | components/modals/OutputFormModal.tsx:103 | the first piece of `split('-')` is a hyphen-free prefix, ended by a hyphen or by the end of the text |
| OutputForm.KeyRoundTrip | components/modals/OutputFormModal.tsx:103 | for hyphen-free size and shade, splitting `${size}-${shade}` gives back the original pair |
| OutputForm.KeyInjective | components/modals/OutputFormModal.tsx:89 | for hyphen-free texts, two pairs share a key if and only if they are equal |
| OutputForm.HyphenatedSizeIsMisread | components/modals/OutputFormModal.tsx:103 | with a hyphen in the size, "XL-T"/"A" splits back as "XL"/"T", and it collides with "XL"/"T-A" |
| OutputForm.Lookup | components/modals/OutputFormModal.tsx:90 | an absent dictionary entry reads as 0; `AssignFacts` and `ClaimedAbsentKey` state how reads relate to writes and to missing keys |
| OutputForm.Assign | components/modals/OutputFormModal.tsx:90 | `AssignFacts`: a write keeps the dictionary well formed, changes only its key, and appends a new key at the end of the key order |
| OutputForm.InputDictMeaning | components/modals/OutputFormModal.tsx:86-92 | the aggregated dictionary is well formed, lists each key once in first-appearance order, and maps it to the sum of the quantities of the rows with that key |
| OutputForm.OutputDictMeaning | components/modals/OutputFormModal.tsx:94-100 | the claimed dictionary maps each key to the summed output quantity of the rows with that key, and reads 0 for any other key |
| OutputForm.AddInputRows | components/modals/OutputFormModal.tsx:88-91 | the inner loop over one input's rows leaves exactly the dictionary that one assignment per row, in row order, makes of the dictionary it started from; `InputDictFromConcat` puts the passes together into the fold over all cohort rows |
| OutputForm.AddOutputRows | components/modals/OutputFormModal.tsx:96-99 | the inner loop over one claimant's rows leaves exactly the dictionary that one assignment per row, in row order, makes of the dictionary it started from |
| OutputForm.AggregateInputQty | components/modals/OutputFormModal.tsx:86-92 | the nested loop returns the dictionary whose keys are the cohort's distinct row keys and whose values are the per-key input sums |
| OutputForm.ClaimedOutputQty | components/modals/OutputFormModal.tsx:94-100 | the nested loop returns the dictionary of per-key output sums over the claimants' rows |
| OutputForm.ClaimedAbsentKey | components/modals/OutputFormModal.tsx:105 | a key no claimant lists counts as claimed 0 |
| OutputForm.FindRow | components/modals/OutputFormModal.tsx:107 | `find` by size and shade: nothing exactly when no row matches; a found row is a row of the list with that size and shade |
| OutputForm.PriorOutputQty | components/modals/OutputFormModal.tsx:107-108 | the shipped quantity of the prior record's first row with this size and shade, and 0 without a record or a match; stated in `AutoFillRows` and `FreshAutoFillSeedsZero` |
| OutputForm.SeedRow | components/modals/OutputFormModal.tsx:102-113 | a seeded row carries the key split back into size and shade and the given input; with no prior record it ships 0; its balance is input - claimed - shipped |
| OutputForm.BuildRows | components/modals/OutputFormModal.tsx:102-113 | one row per dictionary key, in key order, each carrying that key's aggregated input |
| OutputForm.FirstRowIndex | components/modals/OutputFormModal.tsx:107 | `find` by size and shade: -1 exactly when no row matches, otherwise the first matching position |
| OutputForm.SeededRows | components/modals/OutputFormModal.tsx:102-113 | one seeded row per distinct key |
| OutputForm.AutoFilled | components/modals/OutputFormModal.tsx:71-118 | autofill changes nothing but the rows and the sewing finish date; `AutoFillGuard`, `AutoFillRows` and `AutoFillIdempotent` state when it fires and what the rows are |
| OutputForm.AutoFillData | components/modals/OutputFormModal.tsx:71-118 | the dictionary computation yields exactly the form `AutoFilled` describes |
| OutputForm.AutoFillGuard | components/modals/OutputFormModal.tsx:72-79 | the form changes only if all six key fields are non-empty and some input matches; an incomplete key, or a key no input has, leaves it unchanged |
| OutputForm.AutoFillRows | components/modals/OutputFormModal.tsx:102-115 | after autofill: one row per distinct key in first-appearance order; each row's size and shade are the key split back, its input is the cohort's sum and its output comes from the prior record's matching row (else 0); balance = input - claimed - output; only the rows and the sewing finish date change, and the date is that of the first matching input in store order |
| OutputForm.SeedKeysAreDistinctKeys | components/modals/OutputFormModal.tsx:102 | the seeded keys are duplicate-free, are exactly the keys of the cohort's rows, and keep first-appearance order |
| OutputForm.FreshAutoFillSeedsZero | components/modals/OutputFormModal.tsx:107-110 | with no prior record every seeded row ships 0 and its balance is input - claimed; quantities already typed into the form are ignored |
| OutputForm.AutoFillIdempotent | components/modals/OutputFormModal.tsx:71-118 | running autofill again on its own result changes nothing |
| OutputForm.AutoFillIgnoresOwnSavedRecord | components/modals/OutputFormModal.tsx:81-84 | saving the record being filled in does not change what a later autofill of it produces |
| OutputForm.AggregationConserves | components/modals/OutputFormModal.tsx:86-92 | summed over the distinct keys, the per-key aggregates add up to the rows' total quantity: every row is counted exactly once |
| OutputForm.SeededInputConserved | components/modals/OutputFormModal.tsx:86-113 | when each cohort input's total agrees with its rows, the seeded rows' input quantities add up to the cohort's total quantity |
| OutputForm.PreviouslyOutputted | components/modals/OutputFormModal.tsx:143-147 | the loop returns the sum, over the claimants, of the output quantity of each claimant's first row with that size and shade (0 when it has none) |
| OutputForm.OutputQtyEdited | components/modals/OutputFormModal.tsx:132-152 | an edit keeps the number of rows, every row but `index` and every other field; `EditChangesOnlyItsRow` states the edited row |
| OutputForm.HandleOutputQtyChange | components/modals/OutputFormModal.tsx:132-152 | the edit yields exactly the form `OutputQtyEdited` describes |
| OutputForm.EditChangesOnlyItsRow | components/modals/OutputFormModal.tsx:132-151 | only the edited row changes; it keeps size, shade and input; it stores `Number(value) \|\| 0` (0 for non-numeric text); its balance is input - first-match claims - the typed quantity |
| OutputForm.EditStoresShownNumber | components/modals/OutputFormModal.tsx:133 | typing the decimal text of any integer n, negative ones included, stores exactly n |
| OutputForm.EditBalanceConserved | components/modals/OutputFormModal.tsx:138-149 | when the edited row is the first with its size and shade, its balance equals its input less everything shipped for it, this record included |
| OutputForm.NegativeBalanceKept | components/modals/OutputFormModal.tsx:149 | in a worked example (input 100, 80 shipped elsewhere, 30 typed) the balance is -10; it is not clamped |
| OutputForm.EditClaimsAgreeWithAutoFill | components/modals/OutputFormModal.tsx:143-147 | when sizes and shades are hyphen-free and no claimant lists the pair twice, the edit path's claims equal autofill's claims |
| OutputForm.NewRecordEditIsReseeded | components/modals/OutputFormModal.tsx:118-124 | on a new record whose key has a cohort, autofill after an edit gives the same form as before the edit, with every output back at 0: the typed quantity does not survive the effect re-running |
| OutputForm.EditCountsFirstRowOnly | components/modals/OutputFormModal.tsx:145 | a claimant listing (M,A) twice, with 10 and 5, counts 10 on the edit path and 15 in autofill |
| OutputForm.UpdateQuantities | components/modals/OutputFormModal.tsx:61-65 | the total output and total balance equal the sums of the rows' output and balance columns; nothing else changes |
| OutputForm.EditMovesTotals | components/modals/OutputFormModal.tsx:61-64 | after an edit, each total moves by exactly the edited row's change |
| OutputForm.CohortAggregation | components/modals/OutputFormModal.tsx:74-92 | worked cohort (M,A,500),(L,A,700) plus (M,A,300): both inputs match; keys (M,A),(L,A) in that order, with sums 800 and 700 |
| OutputForm.CohortSeedsNewOutput | components/modals/OutputFormModal.tsx:102-115 | that cohort seeds a new output with (M,A,800,0,800),(L,A,700,0,700) and the first input's finish date |
| OutputForm.CohortEdit | components/modals/OutputFormModal.tsx:132-152 | typing 200 for (M,A) leaves balance 600; the totals become 200 and 1300 |
| OutputForm.UniqueInputFilters | components/modals/OutputFormModal.tsx:43-53 | the six option lists; `FiltersOfferStoredValues` and `FilterOptionsInOrder` state that each is duplicate-free, offers every stored value of its field and nothing else, in first-appearance order |
| OutputForm.Column | components/modals/OutputFormModal.tsx:45 | `map(i => i.field)`: one entry per input, in store order |
| OutputForm.FiltersOfferStoredValues | components/modals/OutputFormModal.tsx:43-53 | each of the six option lists is duplicate-free and offers every stored input's value for its field |
| OutputForm.FilterOptionsInOrder | components/modals/OutputFormModal.tsx:45-50 | for each of the six option lists: it is the de-duplicated column of its field, every offered option comes from some input, and options appear in first-appearance order |
| Lists.Distinct | components/modals/OutputFormModal.tsx:45-50 | `[...new Set(s)]` holds exactly the elements of `s`, with no duplicates |
| Lists.DistinctFirstAppearance | components/modals/OutputFormModal.tsx:45-50 | `Set` iteration keeps first-appearance order |
| Lists.DistinctOfDistinct | components/modals/OutputFormModal.tsx:45-50 | de-duplicating a duplicate-free list returns it unchanged |
| Lists.SumOf | components/modals/InputFormModal.tsx:41-43 | the `reduce` sum; `SumOfConcat`, `SumOfUpdate` and `SumOfRemoveAt` state that it splits over concatenation, moves by the difference when one element is replaced, and drops by the removed element |
| Lists.SumOfUpdate | components/modals/OutputFormModal.tsx:61-64 | replacing one element changes the sum by exactly the difference at that element |
| Lists.SumOfRemoveAt | components/modals/InputFormModal.tsx:71-76 | removing one element takes exactly its value off the sum |
| Lists.RemoveAt | components/modals/InputFormModal.tsx:73 | `filter((_, i) => i !== index)` drops exactly position `index` and keeps the rest in order; an out-of-range index changes nothing |
| JsNumber.ToNumber | components/modals/OutputFormModal.tsx:133 | `Number(text)` is defined exactly on the empty text (0) and on optionally signed decimal integers; it gives the digits' value, negated after a leading '-' and unchanged after a leading '+' |
| JsNumber.NumberOrZero | components/modals/OutputFormModal.tsx:133 | `Number(text) \|\| 0`: the number when the text is one, else 0 |
| JsNumber.ShowIntRoundTrip | components/modals/OutputFormModal.tsx:133 | the decimal text of every integer reads back as that integer |
| JsNumber.NonNumericIsZero | components/modals/OutputFormModal.tsx:133 | a text with a non-digit (other than a leading sign) reads as 0 |
| RecordStore.Load | services/db.ts:8-16 | a missing or unparsable collection reads as the empty list; a stored one reads as its records |
| RecordStore.Upsert | services/db.ts:54-63 | the saved record is in the result; saving an existing id keeps the length, a new id adds one record after the old list; the same list operation serves inputs (72-81) and outputs (91-100) |
| RecordStore.FindIndex | services/db.ts:56 | `findIndex` by id: -1 exactly when no record has the id, otherwise the first position with it |
| RecordStore.Remove | services/db.ts:66 | the filtered list is never longer than the original |
| RecordStore.UpsertExisting | services/db.ts:56-58 | saving an existing id overwrites its first record, keeps the length and every other position |
| RecordStore.UpsertNew | services/db.ts:59-60 | saving a new id appends the record: length + 1, old list as prefix |
| RecordStore.UpsertThenFind | services/db.ts:54-63 | after a save, the first record found with that id is the saved record |
| RecordStore.UpsertIdempotent | services/db.ts:91-100 | saving the same record twice gives the same list as once |
| RecordStore.RemoveDropsId | services/db.ts:101-105 | after a delete no record has the id |
| RecordStore.RemoveKeepsOthers | services/db.ts:64-68 | a record survives a delete if and only if it was stored and has another id |
| RecordStore.RemoveConcat | services/db.ts:82-86 | deleting distributes over concatenation, so the survivors keep their original order |
| RecordStore.RemoveAbsent | services/db.ts:101-105 | deleting an absent id leaves the list unchanged |
| RecordStore.UpsertNewThenRemove | services/db.ts:91-105 | saving under a fresh id and then deleting that id restores the list |
| RecordStore.Seeded | services/db.ts:27-47 | a collection is seeded only when its key holds nothing; otherwise the slot is kept as it is |
| RecordStore.Storage.GetEmployees | services/db.ts:53 | the stored employees, or the empty list when the key holds nothing readable |
| RecordStore.Storage.GetInputs | services/db.ts:71 | the stored inputs, or the empty list when the key holds nothing readable |
| RecordStore.Storage.GetOutputs | services/db.ts:90 | the stored outputs, or the empty list when the key holds nothing readable |
| RecordStore.Storage.InitializeMockData | services/db.ts:27-47 | seeds two employees, two inputs and no outputs, each only where its key holds nothing |
| RecordStore.Storage.SaveEmployee | services/db.ts:54-63 | the employees become the upsert of the loaded list; the other collections are untouched |
| RecordStore.Storage.DeleteEmployee | services/db.ts:64-68 | the employees become the loaded list without that id; the other collections are untouched |
| RecordStore.Storage.SaveInput | services/db.ts:72-81 | the inputs become the upsert of the loaded list; the other collections are untouched |
| RecordStore.Storage.DeleteInput | services/db.ts:82-86 | the inputs become the loaded list without that id; the other collections are untouched |
| RecordStore.Storage.SaveOutput | services/db.ts:91-100 | the outputs become the upsert of the loaded list; the other collections are untouched |
| RecordStore.Storage.DeleteOutput | services/db.ts:101-105 | the outputs become the loaded list without that id; the other collections are untouched |
| InputForm.TotalQuantity | components/modals/InputFormModal.tsx:41-43 | the rows' quantities summed with `reduce`; `SizeShadeChangeTotal`, `AddSizeShadeKeepsTotal` and `RemoveSizeShadeTotal` state how each edit moves it |
| InputForm.SetRowField | components/modals/InputFormModal.tsx:60-64 | one row field after an edit; `SizeShadeChangeEditsNamedField` states that only the named field takes the value, `quantity` through `Number` |
| InputForm.WithTotal | components/modals/InputFormModal.tsx:51-53 | the stored total is replaced by the rows' sum; the rows and every other field are kept |
| InputForm.HandleSizeShadeChange | components/modals/InputFormModal.tsx:60-64 | only row `index` may change; the length and the other rows and fields are kept |
| InputForm.SizeShadeChangeEditsNamedField | components/modals/InputFormModal.tsx:63 | the edited row takes the value in the named field (`quantity` through `Number`) and keeps its other fields; an unknown name changes nothing |
| InputForm.SizeShadeChangeTotal | components/modals/InputFormModal.tsx:41-43 | a quantity edit moves the total by the new value less the old one; size and shade edits keep it |
| InputForm.AddSizeShade | components/modals/InputFormModal.tsx:67-69 | exactly one blank row ('', '', 0) is appended; the earlier rows are unchanged |
| InputForm.AddSizeShadeKeepsTotal | components/modals/InputFormModal.tsx:41-43 | adding a blank row does not change the total |
| InputForm.RemoveSizeShade | components/modals/InputFormModal.tsx:71-76 | with more than one row, only row `index` is removed and the rest keep their order; with one row nothing changes |
| InputForm.RemoveSizeShadeTotal | components/modals/InputFormModal.tsx:71-76 | removing a row takes exactly its quantity off the total |
| InputForm.RowsNeverEmpty | components/modals/InputFormModal.tsx:71-72 | from a record with a row, no sequence of add, remove and field edits empties the row list |
| InputForm.FreshRecordHasOneBlankRow | components/modals/InputFormModal.tsx:14-17 | a fresh record has exactly one blank row, a consistent zero total, and keeps a row under every sequence of edits |
| InputForm.MockInputsConsistent | services/db.ts:37-40 | the seeded inputs' totals agree with their rows (1200 = 500 + 700, 700 = 300 + 400) |
| EmployeeForm.HandleChange | components/modals/EmployeeFormModal.tsx:47-55 | a change event on the record; `HandleChangeText` and `HandleChangeCheckbox` state that a text input sets exactly its field and the checkbox sets exactly `isMarried` |
| EmployeeForm.TextNameOf | components/modals/EmployeeFormModal.tsx:53 | a recognised `name` attribute designates the text field of that name |
| EmployeeForm.SetTextFieldFrame | components/modals/EmployeeFormModal.tsx:53 | setting one text field leaves every other text field as it was |
| EmployeeForm.HandleChangeText | components/modals/EmployeeFormModal.tsx:52-54 | a non-checkbox input sets exactly the named field to its value; every other field, the flag and the skills stay |
| EmployeeForm.HandleChangeCheckbox | components/modals/EmployeeFormModal.tsx:49-51 | the checkbox sets `isMarried` to `checked`; every text field and the skills stay |
| EmployeeForm.HandleSkillChange | components/modals/EmployeeFormModal.tsx:57-61 | only the named field of skill `index` changes; the other skills and the rest of the record are kept |
| EmployeeForm.AddSkill | components/modals/EmployeeFormModal.tsx:64-66 | exactly one blank skill is appended; the earlier skills are unchanged |
| EmployeeForm.RemoveSkill | components/modals/EmployeeFormModal.tsx:68-73 | with more than one skill, only skill `index` is removed, in order; with one skill nothing changes |
| EmployeeForm.SkillsNeverEmpty | components/modals/EmployeeFormModal.tsx:68-69 | from a record with a skill, no sequence of skill edits empties the list |
| EmployeeForm.FreshEmployeeKeepsASkill | components/modals/EmployeeFormModal.tsx:14-18 | a fresh employee starts with one blank skill and keeps a skill under every sequence of edits |

## Left out

- JsNumber.ToNumber: reads only an optional sign followed by decimal digits (and the empty text as 0). Whitespace trimming, fractions, exponents, hexadecimal and `Infinity` are not modelled; quantities are integers.
- JsNumber.NumberOrZero: JavaScript numbers are doubles. Precision loss above 2^53 is not modelled; the model's integers are unbounded.
- InputForm.HandleSizeShadeChange: for non-numeric text the source stores `Number(value)`, which is `NaN`. The model stores 0. The total treats `NaN` as 0 (`Number(item.quantity || 0)`, InputFormModal.tsx:42), so the totals agree; the shown cell differs.
- InputForm.TotalQuantity and OutputForm.UpdateQuantities: the `|| 0` default for a missing quantity has no counterpart. Every row of the model carries integer quantities.
- EmployeeForm.HandleChange: the source writes any `name` into the record, even a name that is not a field, or a text value into the boolean field. Such an event leaves the model's record unchanged. `gender` is an unconstrained text, where the source types it as 'Male' | 'Female' | 'Other'.
- OutputForm.HandleOutputQtyChange: the source writes the new quantities into the row object in place. That object is shared with the previous state (`[...formData.sizeShadeQty]` copies the list, not the rows). The model works on values, so this aliasing is not captured.
- React wiring is replaced by explicit calls: `useState`, the `useEffect` hooks that run autofill (OutputFormModal.tsx:120-124) and write totals back (InputFormModal.tsx:51-53, OutputFormModal.tsx:67-69), and `useMemo`. The autofill effect lists `autoFillData` among its dependencies, and that callback depends on the whole `formData` (line 118). On a new record it therefore runs again after every change of the form, its own updates included, and not only on key changes. One consequence is modelled: after `handleOutputQtyChange` the next run reseeds the rows and the typed quantity is back at 0 (`NewRecordEditIsReseeded`); a further run changes nothing (`AutoFillIdempotent`). The sequence and number of re-renders are not modelled.
- The inputs the output form reads once when it opens (`getInputs()` at OutputFormModal.tsx:56) and the outputs it reads at each call (`getOutputs()`) are parameters of the model's functions.
- `localStorage` and JSON are abstracted to the `Slot` states. A failed write (`saveToStorage`'s catch, services/db.ts:18-24) and the `console.error` logging are not modelled.
- Fresh ids come from `Date.now()` (`OUT…`, `INP…`, `EMP…`). They are nondeterministic and not modelled: a record's id is whatever the caller gives.
- `window.confirm` before a delete (EmployeeFormModal.tsx:93, InputFormModal.tsx:85, OutputFormModal.tsx:161) and the `FileReader` photo upload (EmployeeFormModal.tsx:75-84) are browser I/O and are not modelled. So are the forms' submit, delete and "new" buttons; the store operations they call are modelled.
- The generic `handleChange` field setters of the input and output forms (a one-field record update) are not modelled separately.
- Rendering, the login page, navigation, page components and `constants.ts` are not part of this model.
