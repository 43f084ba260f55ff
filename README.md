# Personal finance ledger — a Dafny model

This project models the ledger logic of a browser expense tracker that exists
in two independent versions.

- **Typed ledger** (`script.js`, module `TypedLedger`). There is one list of
  transactions `{id, type, amount, category, note, date}`.
  - The add form validates the input and pushes one transaction.
  - Delete, after confirmation, filters a transaction id out.
  - Rendering sorts the list in place, newest date first.
  - The summary sums income and expense and returns `income - expense`.
  - Import replaces the whole list with a parsed JSON array.
  - Loading turns a missing storage key into the empty list.
- **Split ledger** (`version2/script.js`, module `SplitLedger`). There are two
  lists, `expenses` and `incomes`.
  - An accepted expense is stored with amount `-|amount|`.
  - An income is stored as entered, together with a currency code.
  - Delete and edit both filter the id out. Edit first looks the id up and
    writes the found entry back into the form.
  - The home view computes raw totals, with `balance = totalIncome + totalExpense`.
  - The chart data is the distinct categories plus one total per category.
  - The income table converts between USD and KHR at the fixed rate 4000.

Each version's mutable state is a class:
- `TypedLedger.Ledger` holds the `transactions` list.
- `SplitLedger.Book` holds the `expenses` and `incomes` lists.

Each class has a ghost copy of what local storage holds, and its `Valid()`
invariant relates that copy to memory:
- In the split ledger, every mutation saves at once, so storage equals memory.
- In the typed ledger, rendering sorts without saving, so storage and memory
  hold the same multiset of transactions but may differ in order.

Folds, filters, `find`, `map` and `[...new Set(..)]` are functions in
module `Seqs`. `parseFloat` truthiness and `String.prototype.trim` are in
module `JsValues`.

Points where the code behaves differently from what one might expect:
- Unreadable stored data is not turned into an empty list. Both versions call
  `JSON.parse` on it and throw, so that case is not modelled (see Left out).
- The split ledger appends new entries at the end of a list, not at its head.
- The split ledger's home income total is a raw sum with no currency
  conversion. `SplitLedger.UsdTotalWithoutKhr` shows that it equals the
  converted USD total only when there are no KHR incomes.
- Category totals are signed sums. Absolute values are applied only when the
  chart is drawn, which is outside the model. `SplitLedger.CategoryTotalsNegative`
  shows that with negative expenses each total is negative, so the chart
  plots its negation.
- Identifiers are not guaranteed unique. Delete and edit remove every entry
  with the given id.

## Model

| member | source | states |
|---|---|---|
| `JsValues.OrZero` | version2/script.js:133 | `parseFloat(..) \|\| 0` is non-zero exactly when the parsed number is truthy, and then it is that number; NaN and 0 both become 0 |
| `JsValues.TrimStart` | script.js:60 | the result is a suffix of the input, does not start with whitespace, and only whitespace was dropped |
| `JsValues.TrimEnd` | script.js:60 | the result is a prefix of the input, does not end with whitespace, and only whitespace was dropped |
| `JsValues.Trim` | script.js:60 | the result is a slice of the input with only whitespace before and after it; neither end of it is whitespace; it is empty exactly when the input is all whitespace |
| `JsValues.TrimIdempotent` | script.js:60 | trimming twice gives the same as trimming once |
| `Seqs.Map` | version2/script.js:96 | `map` keeps the length and applies the function at every index |
| `Seqs.Find` | version2/script.js:151 | `find` returns nothing exactly when no element matches; otherwise it returns the first matching element |
| `Seqs.Distinct` | version2/script.js:96 | spreading a `Set` gives no duplicates and exactly the values of the input |
| `Seqs.DistinctPrefix` | version2/script.js:96 | de-duplicating a prefix gives a prefix of the de-duplicated whole |
| `Seqs.DistinctOrder` | version2/script.js:96 | values leave the `Set` in order of first appearance |
| `Seqs.Sum` | script.js:136-138 | definition of `reduce((acc, x) => acc + f(x), 0)`, no contract; its properties are stated by the `Seqs.Sum…` lemmas below |
| `Seqs.Filter` | script.js:88 | definition of `filter`, no contract; its properties are stated by `Seqs.FilterFacts`, `Seqs.FilterCount`, `Seqs.FilterAppend` and `Seqs.FilterKeepsAll` |
| `Seqs.SumAppend` | script.js:138 | a `reduce` sum over a concatenation is the sum of the two parts' sums |
| `Seqs.SumPermutation` | script.js:104-105 | reordering a list, as the render sort does, leaves every `reduce` sum unchanged |
| `Seqs.SumFilter` | script.js:136-138 | summing a filtered list is summing the whole list with 0 for the excluded elements |
| `Seqs.SumAdd` | script.js:136-142 | a sum of two summands is the sum of the two sums |
| `Seqs.SumPointwise` | version2/script.js:97 | two sums agree when their terms agree position by position |
| `Seqs.SumZero` | version2/script.js:97 | a sum whose terms are all zero is zero |
| `Seqs.SumIndicator` | version2/script.js:97 | over a duplicate-free list, a function that is zero except at one member sums to the value at that member |
| `Seqs.SumOfNegatives` | version2/script.js:81 | a sum of negative terms is at most 0, and strictly below 0 when the list is non-empty |
| `Seqs.FilterCount` | script.js:88 | `filter` keeps every occurrence of a passing element and removes every failing one |
| `Seqs.FilterFacts` | script.js:88 | every element `filter` keeps passes the test; a passing element keeps all its occurrences and a failing one keeps none; when every element passes, the input comes back unchanged |
| `Seqs.FilterAppend` | script.js:88 | `filter` distributes over concatenation, so the kept elements stay in their original order |
| `Seqs.FilterKeepsAll` | script.js:88 | when every element passes, `filter` returns its input |
| `Seqs.OrEmpty` | script.js:9-12 | a missing storage key loads as the empty list; stored data loads as it was saved |
| `TypedLedger.Ledger.Load` | script.js:27 | the ledger starts as the loaded list, with storage and memory in agreement |
| `TypedLedger.NewTransaction` | script.js:58-73 | the form is refused exactly when the amount is 0 or NaN, the trimmed category is blank, or the date is empty; an accepted form yields a non-zero amount, a trimmed non-blank category, a trimmed note, the form's type and date, and the supplied id |
| `TypedLedger.Ledger.Add` | script.js:55-76 | a refused form leaves the ledger and storage unchanged; an accepted one is appended last, after all earlier transactions in their old order, and saved |
| `TypedLedger.RemoveId` | script.js:88 | no remaining transaction has the id; every other transaction stays as often as before; an absent id leaves the list unchanged |
| `TypedLedger.RemoveIdAppend` | script.js:88 | removing an id distributes over concatenation, so survivors keep their order |
| `TypedLedger.AddThenRemove` | script.js:75-88 | appending a transaction whose id is fresh and then deleting that id restores the ledger |
| `TypedLedger.Ledger.Delete` | script.js:86-89 | when declined, nothing changes; when confirmed, the ledger is the old one with that id filtered out, no transaction carries the id, and storage is updated |
| `TypedLedger.Insert` | script.js:105 | inserting into a newest-first list keeps it newest first and adds exactly that one transaction |
| `TypedLedger.SortNewestFirst` | script.js:104-105 | the sort's result is ordered by non-increasing date and is a permutation of its input |
| `TypedLedger.Ledger.Render` | script.js:99-105 | rendering leaves the list newest first and a permutation of itself, leaves storage alone, and does not change the summary totals |
| `TypedLedger.Summarize` | script.js:135-144 | definition of the three summary totals, no contract; its properties are stated by the `TypedLedger.Summary…` lemmas below |
| `TypedLedger.SummaryAsSums` | script.js:136-142 | the filtered income and expense sums equal whole-ledger sums that count 0 for transactions of other types |
| `TypedLedger.SummaryEmpty` | script.js:135-144 | an empty ledger gives income, expense and balance all 0 |
| `TypedLedger.SummaryAppend` | script.js:135-144 | one more income raises income and balance by its amount; one more expense raises expense and lowers balance by its amount; any other type changes no total |
| `TypedLedger.SummaryPartition` | script.js:135-144 | the sum of all amounts is income + expense + the amounts of other types |
| `TypedLedger.SummaryPermutation` | script.js:135-144 | the totals depend only on which transactions are present, not on their order |
| `TypedLedger.Ledger.Import` | script.js:172-186 | a confirmed array replaces the whole ledger and is saved; a parse failure, a non-array or a declined confirmation leaves ledger and storage unchanged, each with its own outcome |
| `SplitLedger.Book.Load` | version2/script.js:63-64 | both lists start as loaded, a missing key giving an empty list, with storage and memory equal |
| `SplitLedger.NewExpense` | version2/script.js:130-135 | refused exactly when date, category or description is empty or the amount is 0 or NaN; an accepted expense has the form's fields, the amount's magnitude and a strictly negative amount |
| `SplitLedger.NewIncome` | version2/script.js:202-209 | refused exactly when date or source is empty or the amount is 0 or NaN; otherwise stored exactly as entered, with no sign change and no currency check |
| `SplitLedger.ExpensePrefill` | version2/script.js:153-156 | definition of the form the expense edit button fills in (the amount as its magnitude), no contract; `SplitLedger.ExpenseEditRoundTrip` states its property |
| `SplitLedger.IncomePrefill` | version2/script.js:227-231 | definition of the form the income edit button fills in, no contract; `SplitLedger.IncomeEditRoundTrip` states its property |
| `SplitLedger.ExpenseEditRoundTrip` | version2/script.js:153-156 | submitting the form that edit prefilled, unchanged, re-creates the expense under the new id |
| `SplitLedger.IncomeEditRoundTrip` | version2/script.js:227-231 | submitting the form that edit prefilled, unchanged, re-creates the income under the new id |
| `SplitLedger.RemoveExpense` | version2/script.js:145 | no remaining expense has the id; every other expense stays as often as before; an absent id changes nothing |
| `SplitLedger.RemoveExpenseAppend` | version2/script.js:145 | removing an id distributes over concatenation, so the other expenses keep their order |
| `SplitLedger.RemoveIncome` | version2/script.js:219 | no remaining income has the id; every other income stays as often as before; an absent id changes nothing |
| `SplitLedger.RemoveIncomeAppend` | version2/script.js:219 | removing an id distributes over concatenation, so the other incomes keep their order |
| `SplitLedger.RemoveExpenseKeepsWellFormed` | version2/script.js:157 | filtering keeps every remaining expense negative and complete |
| `SplitLedger.AddThenRemoveExpense` | version2/script.js:135-145 | appending an expense with a fresh id and deleting that id restores the list |
| `SplitLedger.AddThenRemoveIncome` | version2/script.js:209-219 | appending an income with a fresh id and deleting that id restores the list |
| `SplitLedger.Book.SubmitExpense` | version2/script.js:128-139 | a refused form changes nothing; an accepted one is appended last and saved; incomes are untouched; every expense stays negative |
| `SplitLedger.Book.DeleteExpense` | version2/script.js:143-146 | expenses become the old list with that id filtered out, and the change is saved; the sign invariant is kept |
| `SplitLedger.Book.EditExpense` | version2/script.js:149-160 | an id that is not found changes nothing; otherwise the first match prefills the form, every entry with that id is removed and saved, and the sign invariant is kept |
| `SplitLedger.Book.SubmitIncome` | version2/script.js:200-213 | a refused form changes nothing; an accepted income is appended last, exactly as entered, and saved |
| `SplitLedger.Book.DeleteIncome` | version2/script.js:217-220 | incomes become the old list with that id filtered out, and the change is saved |
| `SplitLedger.Book.EditIncome` | version2/script.js:223-235 | an id that is not found changes nothing; otherwise the first match prefills the form and every entry with that id is removed and saved |
| `SplitLedger.HomeTotals` | version2/script.js:81-83 | definition of the home screen's totals, no contract; `SplitLedger.HomeTotalsSigns` and `SplitLedger.HomeTotalsEmpty` state its properties |
| `SplitLedger.HomeTotalsSigns` | version2/script.js:81-83 | with every expense negative, totalExpense is at most 0 and balance is at most totalIncome; both are strict when there is an expense |
| `SplitLedger.HomeTotalsEmpty` | version2/script.js:81-83 | empty lists give totals and balance of 0 |
| `SplitLedger.Categories` | version2/script.js:96 | the category list has no duplicates; it holds every expense's category and only categories that occur |
| `SplitLedger.CategorySum` | version2/script.js:97 | the filtered sum of a category equals the sum over all expenses counting each expense's amount when it is in that category and 0 otherwise |
| `SplitLedger.CategoryTotals` | version2/script.js:96-97 | there is exactly one total per category, in the category list's order, and each is the sum of the amounts of the expenses in that category |
| `SplitLedger.CategoryTotalsNegative` | version2/script.js:96-101 | with every expense negative, every category total is negative, so the chart's `Math.abs` plots each as the category's spending |
| `SplitLedger.CategoriesInFirstAppearanceOrder` | version2/script.js:96 | a category that first appears earlier among the expenses comes earlier in the list |
| `SplitLedger.CategorySumsCover` | version2/script.js:97 | over any duplicate-free list holding every present category, the per-category sums add up to the sum of all expenses |
| `SplitLedger.CategoryTotalsSum` | version2/script.js:96-97 | the chart's per-category totals add up to the home screen's totalExpense |
| `SplitLedger.KhrValue` | version2/script.js:173 | a USD income's KHR column is its USD column times 4000; any other currency keeps its amount |
| `SplitLedger.UsdValue` | version2/script.js:174 | a KHR income's USD column times 4000 is its amount; any other currency keeps its amount |
| `SplitLedger.ColumnsAgree` | version2/script.js:173-174 | for USD and KHR, the KHR column is 4000 times the USD column; an unknown currency has the amount in both columns |
| `SplitLedger.IncomeTable` | version2/script.js:171-175 | one row per income, holding its converted KHR and USD values; `totalUSD` is the sum of the USD column, starting from 0 |
| `SplitLedger.UsdTotalWithoutKhr` | version2/script.js:171-175 | without KHR incomes, the converted USD total equals the home screen's raw income total |
| `SplitLedger.KhrTotalIsRateTimesUsdTotal` | version2/script.js:171-175 | when every income is in USD or KHR, the KHR column's total is 4000 times `totalUSD` |

## Left out

- DOM rendering, modals, tab navigation, the mobile menu and event wiring:
  these are user interface only. Each handler becomes a method, or a pair of
  methods, on the ledger class. The typed ledger's submit, delete and import
  handlers call `Render` after their own method.
- The Chart.js doughnut, and the `Math.abs` applied to its data: drawing only.
  The model stops at the `categories` and `totals` data.
- `formatCurrency`: `toFixed` and `toLocaleString` are locale-dependent
  float formatting.
- Local storage and JSON text: storage is a ghost list per key, and a missing
  key is `None`. Stored data that `JSON.parse` rejects makes the source throw
  rather than recover, so it is not modelled. A stored value that parses to
  something other than an array is not modelled either.
- Export (Blob, object URL, download link) and the FileReader: I/O only.
  Import starts from the parse result, which is an array of transactions, a
  non-array, or a parse failure.
- `generateId` (`Math.random`) and `Date.now()`: the id is a parameter.
  Nothing claims ids are unique, because the source does not ensure it.
- `confirm` and `alert`: the confirmation is a `bool` parameter, and alerts
  are the import outcome or the `added` result.
- Floating point: amounts are mathematical reals. Rounding, `Infinity` and
  `-0` are not modelled.
- Parsing of amount text, and of date text into a time: the form supplies
  the result of `parseFloat`, and in the typed ledger a date is a day number.
  An invalid date, whose `new Date` is NaN, is not modelled.
- `TypedLedger.SortNewestFirst`: the engine's `Array.prototype.sort` is
  modelled as a stable insertion sort computed as a function and assigned to
  the list. Its contract states ordering and permutation, but not stability.
- Records with missing or extra fields inside an imported array: every
  imported element is a well-formed transaction value.
