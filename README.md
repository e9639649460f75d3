# ChoboCalculator — a verified model of a bookkeeping pipeline

This project models the calculation core of a small double-entry bookkeeping
tool for Japanese blue-form tax returns. The core is:

- `ChoboCalculator` in `src/main.ts`.
- The array helpers of `CommonUtils` in `src/commonUtil.ts`, which it uses.

The pipeline runs in three steps:

1. **総勘定元帳 (general ledger), `calcSoukanjomotocho`.**
   - Sorts the journal (仕訳) by date.
   - Posts each entry's debit side (借方) and then its credit side (貸方) to their accounts (勘定科目).
   - Keeps a running balance (残高) per account.
   - Orders the resulting rows by display order, account name and date.
2. **試算表 (trial balance), `calcShisan`.**
   - Gives every account of the chart one row.
   - Each row holds the account's gross debit and credit totals over the ledger, and its net balance on its natural side.
   - The rows are ordered by display order.
3. **決算 (financial statements), `calcKessan`.**
   - Keeps the trial-balance rows of the accounts that belong to one statement: the balance sheet (貸借対照表) or the income statement (損益計算書).

The Dafny modules:

- `Wrappers`: `Option` and `Result`.
- `CommonUtils` (`common_util.dfy`):
  - `sortArray` is an in-place sort of an `array` with a multi-key comparator. The comparator is the function `Compare`, and the method `Comparator` implements it with the source's loop and early returns.
  - `find` is a loop with an early return.
  - `arrayToMap` fills a `map` one item at a time. It is specified by `KeyedBy`.
  - `mapToArray` takes its key enumeration from `ObjectKeys`.
- `ChoboModel` (`chobo_model.dfy`):
  - The records: `Kamoku`, `Shiwake`, `Soukanjo` and `Shisan`, plus the errors.
  - The reference definitions the calculator is proved against:
    - `KashikariTypeOf`: the master's 貸借区分 text read as debit, credit or other (src/main.ts:53, 70, 118-119).
    - `EntryCheck`: an entry's unknown-account check, debit side first (src/main.ts:49-52 and 66-69).
    - `PlusMinus`: the ±1 sign of a posting for its account (src/main.ts:53 and 70).
    - `LedgerRow`: the ledger row literal for one posting (src/main.ts:55-65 and 72-82).
    - `Postings`: each entry's two sides, in processing order.
    - `Balance`: the signed sum of postings to an account.
    - `LedgerRows`: the ledger rows with their running balances.
    - `FirstUnknown`: the first entry naming a missing account.
    - `TrialBalanceRow`: an account's totals and net balance.
- `ChoboCalculator` (`chobo_calculator.dfy`):
  - The three operations, as imperative methods where the source updates dictionaries in loops.
  - `CalcKessan` as a function, because it is a single `filter`.

The two sheets the calculator reads become the sequences their
`getRecords()` would return: journal entries and account-master rows.
Amounts and dates are integers.

## Model

| member | source | states |
|---|---|---|
| CommonUtils.Compare | src/commonUtil.ts:12-22 | the comparator only ever returns -1, 0 or 1 |
| CommonUtils.Comparator | src/commonUtil.ts:13-21 | the loop over the options, which returns at the first key telling the two apart, computes exactly the comparator `Compare` |
| CommonUtils.KeyOrder | src/commonUtil.ts:14-18 | every sort key (number or string under `<`) is a strict total order whose ties are exactly the equal values |
| CommonUtils.StrTrichotomy | src/commonUtil.ts:14-18 | string `<` is trichotomous and asymmetric |
| CommonUtils.StrLessTransitive | src/commonUtil.ts:14-18 | string `<` is transitive |
| CommonUtils.CompareAntisymmetric | src/commonUtil.ts:13-21 | cmp(a, b) = -cmp(b, a) |
| CommonUtils.CompareZeroIff | src/commonUtil.ts:13-21 | the comparator returns 0 exactly when every option's key is equal for the two elements |
| CommonUtils.CompareTransitive | src/commonUtil.ts:13-21 | "compares ≤ 0" is transitive, so the comparator is a consistent ordering |
| CommonUtils.CompareFirstDifference | src/commonUtil.ts:13-19 | the first key on which two elements differ alone decides their order: ascending for ASC, descending for DESC |
| CommonUtils.Swap | src/commonUtil.ts:11-23 | exchanging two elements changes only those two positions and keeps the contents as a multiset |
| CommonUtils.SwapKeepsOrder | src/commonUtil.ts:11-23 | swapping an out-of-order element with its left neighbour moves the one disorder a step left and keeps every other adjacent pair in comparator order |
| CommonUtils.Insert | src/commonUtil.ts:11-23 | inserting element i into the sorted prefix before it leaves the first i+1 elements in comparator order, as a permutation of what was there, and leaves every element after position i unchanged |
| CommonUtils.SortArray | src/commonUtil.ts:11-23 | sorts the array in place and returns that same array; the contents are a permutation of the input, and adjacent elements are in comparator order |
| CommonUtils.SortedPairwise | src/commonUtil.ts:11-23 | in sortArray's output every pair, not only adjacent ones, is in comparator order |
| CommonUtils.SortedByFirstDifference | src/commonUtil.ts:13-19 | each adjacent pair of the output is ordered by the first option key on which the two differ, in that option's direction |
| CommonUtils.Find | src/commonUtil.ts:26-32 | returns nothing exactly when no element matches; otherwise returns the first matching element |
| CommonUtils.KeyedByMeaning | src/commonUtil.ts:34-40 | the dictionary's keys are exactly the items' keys; each key maps to an item carrying that key, and that item is the last one with the key (last write wins) |
| CommonUtils.KeyedByUnique | src/commonUtil.ts:34-40 | with unique keys, every item is stored under its own key |
| CommonUtils.ArrayToMap | src/commonUtil.ts:34-40 | assigning the items in turn builds exactly the dictionary `KeyedBy` describes |
| CommonUtils.ObjectKeys | src/commonUtil.ts:43 | yields every key of the dictionary exactly once |
| CommonUtils.MapToArray | src/commonUtil.ts:42-44 | one element per key of the dictionary, and element i is the value under key i |
| CommonUtils.MapToArrayValues | src/commonUtil.ts:42-44 | every stored value appears in the output, and nothing else does |
| CommonUtils.RoundTripKeepsItems | src/commonUtil.ts:34-44 | with unique keys, every item survives mapToArray(arrayToMap(a)) |
| CommonUtils.RoundTripAddsNothing | src/commonUtil.ts:34-44 | mapToArray(arrayToMap(a)) contains only items of a |
| CommonUtils.RoundTripDistinct | src/commonUtil.ts:34-44 | mapToArray(arrayToMap(a)) never repeats an item |
| CommonUtils.MapToArrayOfArrayToMap | src/commonUtil.ts:34-44 | for an array with unique keys, mapToArray(arrayToMap(a)) is a permutation of a |
| CommonUtils.PermutationKeepsDistinct | src/main.ts:125-128 | sorting rows whose account names are distinct keeps them distinct |
| ChoboModel.KashikariTypeOf | src/main.ts:118-119 | exactly the text "借方" is the debit type and exactly "貸方" the credit type; any other text is kept as an other type |
| ChoboModel.PlusMinusOfText | src/main.ts:53-70 | the two sign ternaries: +1 for a debit exactly when the account's text is "借方", +1 for a credit exactly when it is "貸方", -1 otherwise |
| ChoboModel.KamokuMapNamed | src/main.ts:42 | every account in the master dictionary is stored under its own name |
| ChoboModel.SumPermutation | src/main.ts:110-123 | a per-row accumulation does not depend on the order of the rows |
| ChoboModel.Postings | src/main.ts:48-83 | the posting loop makes exactly two postings per journal entry |
| ChoboModel.PostingsAt | src/main.ts:48-83 | entry i gives posting 2i (its debit side) and posting 2i+1 (its credit side) |
| ChoboModel.LedgerRows | src/main.ts:55-82 | one ledger row per posting |
| ChoboModel.LedgerRowAt | src/main.ts:43-82 | ledger row k records posting k; its balance is the signed sum of every posting to that account up to and including this one, starting from 0, with sign +1 when the side matches the account's 貸借区分 (debit/credit type) and -1 otherwise |
| ChoboModel.EntryRows | src/main.ts:55-82 | entry i's debit row names the debit account, has the credit account as counterpart, the debit amount and a credit amount of 0; the credit row mirrors it; both copy the entry's id, date and summary and the account's display order |
| ChoboModel.FirstUnknownMeaning | src/main.ts:48-69 | no error exactly when every entry's two accounts are in the master; otherwise the error is the one raised by the first failing entry, whose debit side is checked first |
| ChoboModel.FirstUnknownStep | src/main.ts:48-69 | one more entry changes the outcome only when every earlier entry passed, and then to that entry's own check |
| ChoboModel.FirstUnknownPrefix | src/main.ts:48-69 | once a prefix of the journal has raised an error, later entries cannot change it |
| ChoboModel.FirstUnknownAt | src/main.ts:48-69 | the first entry with an unknown account decides the error |
| ChoboModel.KnownPostings | src/main.ts:48-69 | when no entry names an unknown account, every posting's account is in the master |
| ChoboModel.TrialBalanceRowPermutation | src/main.ts:110-123 | the trial balance depends only on which ledger rows there are, not on their order |
| ChoboModel.TrialBalanceStep | src/main.ts:110-123 | a ledger row adds its amounts to its own account's totals and its natural-side net to that account's net balance; other accounts are unchanged |
| ChoboModel.TrialBalanceRowIdle | src/main.ts:100-107 | an account with no ledger rows keeps all four amounts at 0 |
| ChoboModel.TotalStep | src/main.ts:55-82 | one more posting adds its amount to its own account's total on its own side and to no other total |
| ChoboModel.LedgerTotals | src/main.ts:55-82 | an account's gross ledger totals are the amounts the journal entries post to it on each side |
| ChoboModel.ClosingBalance | src/main.ts:53-71 | an account's final running balance is debit total minus credit total for 借方 accounts, credit minus debit for 貸方 accounts, and minus both for any other type |
| ChoboModel.TrialBalanceOfLedger | src/main.ts:96-130 | for a ledger built from the journal, in any order, the trial balance's totals are the journal's per-account amounts, and its natural-side net equals the account's closing running balance |
| ChoboCalculator.SoukanjoSortMeaning | src/main.ts:84-88 | the ledger's sort options order rows by display order, then account name, then date |
| ChoboCalculator.SingleIntKeyMeaning | src/main.ts:38-40 | a single ascending numeric option orders by that number |
| ChoboCalculator.DateOrder | src/main.ts:37-40 | after the first sort the journal is in ascending date order |
| ChoboCalculator.PresentationOrder | src/main.ts:84-88 | after the second sort every pair of ledger rows is ordered by (kamokuOrder, kamoku, date) |
| ChoboCalculator.PostStep | src/main.ts:53-65 | one posting moves only its account's running balance, by the signed amount, and appends its row with the new balance |
| ChoboCalculator.OpeningBalances | src/main.ts:43-46 | every account of the master starts with balance 0, and there is no other balance |
| ChoboCalculator.PostEntry | src/main.ts:49-82 | an entry raises the debit-side error when its debit account is unknown, otherwise the credit-side error when its credit account is unknown; otherwise its two rows are posted, keeping every running balance equal to the signed sum |
| ChoboCalculator.JournalPrefixStep | src/main.ts:48-83 | the postings and the first error of the first i+1 entries follow from those of the first i entries and entry i |
| ChoboCalculator.PostEntries | src/main.ts:47-83 | the loop fails exactly when some entry names an unknown account, with the first such error; otherwise its rows are exactly the ledger rows of the postings |
| ChoboCalculator.CalcSoukanjomotocho | src/main.ts:36-93 | the entries are processed in a date-sorted permutation of the journal; the error is the first unknown-account error in that order; on success there are 2n rows, they are a permutation of the running-balance ledger rows, and they are in (kamokuOrder, kamoku, date) order |
| ChoboCalculator.OpeningShisan | src/main.ts:97-109 | one zero row per master account, with the account's name and display order |
| ChoboCalculator.AccumulateStep | src/main.ts:110-123 | adding one ledger row's amounts and natural-side net to its account's entry keeps every entry equal to that account's trial balance over the rows so far |
| ChoboCalculator.Accumulate | src/main.ts:110-124 | fails with UnknownKamoku exactly when some ledger row's account is missing from the master; otherwise every account's row is its trial balance over all the ledger rows |
| ChoboCalculator.CalcShisan | src/main.ts:96-130 | fails exactly when a ledger row names an unknown account; otherwise it returns one row per distinct master account (no name twice); each row holds that account's totals and natural-side net; rows are in ascending display order |
| ChoboCalculator.ListByOrder | src/main.ts:125-128 | lists every account's entry once, each key once, and sorts the list by display order as a permutation |
| ChoboCalculator.ListedRows | src/main.ts:125 | mapToArray over the finished table gives one row per master account, each its own account's trial balance, no name twice |
| ChoboCalculator.PermutedRows | src/main.ts:126-128 | sorting keeps one row per account, each its trial balance, no name twice |
| ChoboCalculator.TrialBalanceRows | src/main.ts:125-128 | the listed and sorted trial balance has one row per master account, each its account's trial balance, names distinct, in display order |
| ChoboCalculator.TrialBalanceOrder | src/main.ts:126-128 | sorting by `order` leaves the rows in ascending display order |
| ChoboCalculator.CalcKessan | src/main.ts:133-137 | the result is a subsequence of the input (input order kept) and holds each row of the requested statement as often as the input does, and no other row |
| ChoboCalculator.KessanPartition | src/main.ts:133-137 | when every account is on one of the two statements, the balance sheet and the income statement together hold each trial-balance row exactly once |

## Left out

- `global.main` (src/main.ts:9-25) is not modelled. It reads and writes Google Sheets and shows a message box, all of which is I/O. The sheets' `getRecords()` results are the methods' sequence parameters.
- `CommonUtils.getSimpleDate` is not modelled. It only formats a date through the host platform.
- The sheet classes and the record interfaces are not part of this model.
  - The record fields are taken from their use in `src/main.ts`.
  - Entry ids are modelled as integers.
- CommonUtils.SortArray: the engine's sort algorithm and its stability are not modelled. An insertion sort driven by the same comparator stands for `Array.prototype.sort`. Nothing is claimed about the relative order of rows whose keys are all equal. This is why `CalcSoukanjomotocho` returns the posting order it actually used as a ghost value.
- CommonUtils.ObjectKeys: the enumeration order of `Object.keys` is left open. It is any order that lists each key once, so `mapToArray`'s output is specified as an unordered collection of the stored values.
- Plain JavaScript objects used as dictionaries are modelled as Dafny maps. Names that collide with inherited properties such as "constructor" are not modelled.
- Amounts are integers, not floating-point numbers. Dates are integers compared with `<`, which is what `Date` values compare by.
- StrLess: string `<` compares characters. JavaScript compares UTF-16 code units, which differs only for characters outside the Basic Multilingual Plane.
- ChoboCalculator.CalcKessan requires every row's account to be in the master. The source does not check this: it fails with a `TypeError` when reading a missing account's `seisanType`.
- CommonUtils.SortArray takes and returns the array itself, as the source does. The calculator copies its input sequences into fresh arrays first, because the sheets' record lists are not modelled as shared objects.
- ChoboCalculator.CalcSoukanjomotocho keeps the row-count check as an `Err(RowCountMismatch)` branch. The verifier proves that branch is never taken: the posting loop always adds exactly two rows per entry.
- ChoboCalculator.CalcShisan: the error for a ledger row whose account is missing carries no account name, because the source's message names none.
- ChoboModel.KamokuMap: when two master rows share a name, the later one replaces the earlier one (last write wins), as the code does, rather than failing as a duplicate.
