/** The split ledger of version2/script.js: expenses and incomes in two
    module-level arrays, expenses stored with a negative amount, incomes as
    entered with a currency code; a home view with raw totals and
    per-category expense sums, and an income table converted between USD
    and KHR at a fixed rate. */
module SplitLedger {
  import opened Seqs
  import opened JsValues

  /** `Date.now()` at submission, read back with `parseInt`. */
  type Id = int

  /** `USD_TO_KHR`. */
  const UsdToKhr: real := 4000.0

  datatype Expense = Expense(id: Id, date: string, category: string, description: string, amount: real)

  datatype Income = Income(id: Id, date: string, amount: real, currency: string, source: string, note: string)

  /** The expense form; the amount is `parseFloat` of its field. */
  datatype ExpenseForm = ExpenseForm(date: string, category: string, description: string, amount: Number)

  /** The income form; the currency is the value of its select. */
  datatype IncomeForm = IncomeForm(date: string, amount: Number, currency: string, source: string, note: string)

  datatype Home = Home(totalExpense: real, totalIncome: real, balance: real)

  /** One income table row: the two converted columns. */
  datatype Row = Row(khr: real, usd: real)

  function Abs(x: real): real { if x < 0.0 then -x else x }

  // ---------------------------------------------------------------------
  // Validation and the entries it admits

  /** What every accepted expense looks like: filled fields, a negative amount. */
  predicate WellFormedExpense(e: Expense)
  {
    e.date != "" && e.category != "" && e.description != "" && e.amount < 0.0
  }

  predicate WellFormedIncome(i: Income)
  {
    i.date != "" && i.source != "" && i.amount != 0.0
  }

  predicate AllWellFormed(s: seq<Expense>)
  {
    forall k :: 0 <= k < |s| ==> WellFormedExpense(s[k])
  }

  /** The expense submit handler: refused when date, category or description
      is empty or the amount is 0 or NaN; otherwise stored with `-|amount|`. */
  function NewExpense(f: ExpenseForm, id: Id): (r: Option<Expense>)
    ensures r.None? <==> f.date == "" || f.category == "" || f.description == "" || !Truthy(f.amount)
    ensures r.Some? ==> WellFormedExpense(r.value) && r.value.id == id
    ensures r.Some? ==> r.value.date == f.date && r.value.category == f.category && r.value.description == f.description
    ensures r.Some? ==> Abs(r.value.amount) == Abs(OrZero(f.amount))
  {
    var amount := OrZero(f.amount);
    if f.date == "" || f.category == "" || f.description == "" || amount == 0.0 then None
    else Some(Expense(id, f.date, f.category, f.description, -Abs(amount)))
  }

  /** The income submit handler: refused when date or source is empty or the
      amount is 0 or NaN; otherwise stored exactly as entered. */
  function NewIncome(f: IncomeForm, id: Id): (r: Option<Income>)
    ensures r.None? <==> f.date == "" || f.source == "" || !Truthy(f.amount)
    ensures r.Some? ==> WellFormedIncome(r.value)
    ensures r.Some? ==> r.value == Income(id, f.date, OrZero(f.amount), f.currency, f.source, f.note)
  {
    var amount := OrZero(f.amount);
    if f.date == "" || f.source == "" || amount == 0.0 then None
    else Some(Income(id, f.date, amount, f.currency, f.source, f.note))
  }

  /** What the edit button writes back into the expense form. */
  function ExpensePrefill(e: Expense): ExpenseForm
  {
    ExpenseForm(e.date, e.category, e.description, Num(Abs(e.amount)))
  }

  function IncomePrefill(i: Income): IncomeForm
  {
    IncomeForm(i.date, Num(i.amount), i.currency, i.source, i.note)
  }

  /** Editing an expense and submitting the prefilled form unchanged re-creates
      it under the new id. */
  lemma ExpenseEditRoundTrip(e: Expense, id: Id)
    requires WellFormedExpense(e)
    ensures NewExpense(ExpensePrefill(e), id) == Some(e.(id := id))
  {
  }

  lemma IncomeEditRoundTrip(i: Income, id: Id)
    requires WellFormedIncome(i)
    ensures NewIncome(IncomePrefill(i), id) == Some(i.(id := id))
  {
  }

  // ---------------------------------------------------------------------
  // Delete and edit filters

  function ExpenseHasId(id: Id): Expense -> bool { (e: Expense) => e.id == id }
  function ExpenseLacksId(id: Id): Expense -> bool { (e: Expense) => e.id != id }
  function IncomeHasId(id: Id): Income -> bool { (i: Income) => i.id == id }
  function IncomeLacksId(id: Id): Income -> bool { (i: Income) => i.id != id }

  /** `expenses.filter(e => e.id !== id)`. */
  function RemoveExpense(s: seq<Expense>, id: Id): (r: seq<Expense>)
    ensures forall k :: 0 <= k < |r| ==> r[k].id != id
    ensures forall e :: multiset(r)[e] == if e.id == id then 0 else multiset(s)[e]
    ensures (forall k :: 0 <= k < |s| ==> s[k].id != id) ==> r == s
  {
    FilterFacts(s, ExpenseLacksId(id));
    Filter(s, ExpenseLacksId(id))
  }

  /** `incomes.filter(i => i.id !== id)`. */
  function RemoveIncome(s: seq<Income>, id: Id): (r: seq<Income>)
    ensures forall k :: 0 <= k < |r| ==> r[k].id != id
    ensures forall i :: multiset(r)[i] == if i.id == id then 0 else multiset(s)[i]
    ensures (forall k :: 0 <= k < |s| ==> s[k].id != id) ==> r == s
  {
    FilterFacts(s, IncomeLacksId(id));
    Filter(s, IncomeLacksId(id))
  }

  /** Removing an id keeps the relative order of the other expenses. */
  lemma RemoveExpenseAppend(a: seq<Expense>, b: seq<Expense>, id: Id)
    ensures RemoveExpense(a + b, id) == RemoveExpense(a, id) + RemoveExpense(b, id)
  {
    FilterAppend(a, b, ExpenseLacksId(id));
  }

  /** Removing an id keeps the relative order of the other incomes. */
  lemma RemoveIncomeAppend(a: seq<Income>, b: seq<Income>, id: Id)
    ensures RemoveIncome(a + b, id) == RemoveIncome(a, id) + RemoveIncome(b, id)
  {
    FilterAppend(a, b, IncomeLacksId(id));
  }

  /** Removing entries keeps every survivor well formed. */
  lemma RemoveExpenseKeepsWellFormed(s: seq<Expense>, id: Id)
    requires AllWellFormed(s)
    ensures AllWellFormed(RemoveExpense(s, id))
  {
    var r := RemoveExpense(s, id);
    forall k | 0 <= k < |r| ensures WellFormedExpense(r[k]) {
      assert r[k] in multiset(r);
      assert r[k] in multiset(s);
    }
  }

  /** Deleting an expense just added under a fresh id restores the list. */
  lemma {:induction false} AddThenRemoveExpense(s: seq<Expense>, e: Expense)
    requires forall k :: 0 <= k < |s| ==> s[k].id != e.id
    ensures RemoveExpense(s + [e], e.id) == s
  {
    FilterAppend(s, [e], ExpenseLacksId(e.id));
    FilterKeepsAll(s, ExpenseLacksId(e.id));
    assert Filter([e], ExpenseLacksId(e.id)) == [];
  }

  lemma {:induction false} AddThenRemoveIncome(s: seq<Income>, i: Income)
    requires forall k :: 0 <= k < |s| ==> s[k].id != i.id
    ensures RemoveIncome(s + [i], i.id) == s
  {
    FilterAppend(s, [i], IncomeLacksId(i.id));
    FilterKeepsAll(s, IncomeLacksId(i.id));
    assert Filter([i], IncomeLacksId(i.id)) == [];
  }

  // ---------------------------------------------------------------------
  // Home totals

  function ExpenseAmount(e: Expense): real { e.amount }
  function IncomeAmount(i: Income): real { i.amount }

  /** `updateHome`'s three reductions: raw sums of both lists, with no
      currency conversion, and balance = totalIncome + totalExpense. */
  function HomeTotals(expenses: seq<Expense>, incomes: seq<Income>): Home
  {
    var totalExpense := Sum(expenses, ExpenseAmount);
    var totalIncome := Sum(incomes, IncomeAmount);
    Home(totalExpense, totalIncome, totalIncome + totalExpense)
  }

  /** With every expense negative, the expense total is never positive and the
      balance never exceeds the income total; both are strict once there is an expense. */
  lemma HomeTotalsSigns(expenses: seq<Expense>, incomes: seq<Income>)
    requires AllWellFormed(expenses)
    ensures HomeTotals(expenses, incomes).totalExpense <= 0.0
    ensures HomeTotals(expenses, incomes).balance <= HomeTotals(expenses, incomes).totalIncome
    ensures |expenses| > 0 ==> HomeTotals(expenses, incomes).balance < HomeTotals(expenses, incomes).totalIncome
  {
    SumOfNegatives(expenses, ExpenseAmount);
  }

  lemma HomeTotalsEmpty()
    ensures HomeTotals([], []) == Home(0.0, 0.0, 0.0)
  {
  }

  // ---------------------------------------------------------------------
  // Category aggregation

  function CategoryOf(e: Expense): string { e.category }

  /** `[...new Set(expenses.map(e => e.category))]`. */
  function Categories(expenses: seq<Expense>): (cats: seq<string>)
    ensures NoDuplicates(cats)
    ensures forall k :: 0 <= k < |cats| ==> exists j :: 0 <= j < |expenses| && expenses[j].category == cats[k]
    ensures forall j :: 0 <= j < |expenses| ==> expenses[j].category in cats
  {
    var names := Map(expenses, CategoryOf);
    var cats := Distinct(names);
    assert forall k :: 0 <= k < |cats| ==> cats[k] in names;
    cats
  }

  function InCategory(c: string): Expense -> bool { (e: Expense) => e.category == c }

  /** An expense's amount when it is in category `c`, and 0 otherwise. */
  function CategoryShare(c: string): Expense -> real
  {
    (e: Expense) => if e.category == c then e.amount else 0.0
  }

  /** `expenses.filter(e => e.category === cat).reduce((a, b) => a + b.amount, 0)`:
      the amounts of the expenses in category `c`, and of no other, added up. */
  function CategorySum(expenses: seq<Expense>, c: string): (total: real)
    ensures total == Sum(expenses, CategoryShare(c))
  {
    SumFilter(expenses, InCategory(c), ExpenseAmount, CategoryShare(c));
    Sum(Filter(expenses, InCategory(c)), ExpenseAmount)
  }

  /** `categories.map(cat => ...)`: one total per category, in the same order,
      each the sum of the amounts of that category's expenses. */
  function CategoryTotals(expenses: seq<Expense>): (totals: seq<real>)
    ensures |totals| == |Categories(expenses)|
    ensures forall k :: 0 <= k < |totals| ==>
      totals[k] == Sum(expenses, CategoryShare(Categories(expenses)[k]))
  {
    Map(Categories(expenses), c => CategorySum(expenses, c))
  }

  /** Every category total of well-formed expenses is negative, so the chart's
      `Math.abs` plots each category's spending as a positive slice. */
  lemma CategoryTotalsNegative(expenses: seq<Expense>)
    requires AllWellFormed(expenses)
    ensures forall k :: 0 <= k < |CategoryTotals(expenses)| ==> CategoryTotals(expenses)[k] < 0.0
  {
    var cats := Categories(expenses);
    forall k | 0 <= k < |cats| ensures CategorySum(expenses, cats[k]) < 0.0 {
      var c := cats[k];
      var j :| 0 <= j < |expenses| && expenses[j].category == c;
      var f := Filter(expenses, InCategory(c));
      FilterCount(expenses, InCategory(c), expenses[j]);
      assert expenses[j] in multiset(expenses);
      assert expenses[j] in multiset(f);
      forall i | 0 <= i < |f| ensures ExpenseAmount(f[i]) < 0.0 {
        assert f[i] in multiset(f);
        FilterCount(expenses, InCategory(c), f[i]);
        assert f[i] in multiset(expenses);
        var m :| 0 <= m < |expenses| && expenses[m] == f[i];
      }
      SumOfNegatives(f, ExpenseAmount);
    }
  }

  function RealValue(x: real): real { x }

  /** Categories come out in the order in which they first appear among the expenses. */
  lemma CategoriesInFirstAppearanceOrder(expenses: seq<Expense>, p: nat, q: nat, a: nat, b: nat)
    requires p < q < |expenses|
    requires forall j :: 0 <= j < q ==> expenses[j].category != expenses[q].category
    requires a < |Categories(expenses)| && b < |Categories(expenses)|
    requires Categories(expenses)[a] == expenses[p].category
    requires Categories(expenses)[b] == expenses[q].category
    ensures a < b
  {
    var names := Map(expenses, CategoryOf);
    assert names[q] !in names[..q];
    DistinctOrder(names, p, q, a, b);
  }

  /** The sum of every category's expenses, over a duplicate-free list holding
      every category present, is the sum of all expenses. */
  lemma {:induction false} CategorySumsCover(expenses: seq<Expense>, cats: seq<string>)
    requires NoDuplicates(cats)
    requires forall j :: 0 <= j < |expenses| ==> expenses[j].category in cats
    ensures Sum(cats, c => CategorySum(expenses, c)) == Sum(expenses, ExpenseAmount)
    decreases |expenses|
  {
    if |expenses| == 0 {
      SumZero(cats, c => CategorySum(expenses, c));
    } else {
      var s' := expenses[..|expenses| - 1];
      var e := expenses[|expenses| - 1];
      CategorySumsCover(s', cats);
      forall c ensures CategorySum(expenses, c) == CategorySum(s', c) + (if c == e.category then e.amount else 0.0) {
        SumAppend(Filter(s', InCategory(c)), if e.category == c then [e] else [], ExpenseAmount);
      }
      var extra := (c: string) => if c == e.category then e.amount else 0.0;
      SumAdd(cats, c => CategorySum(s', c), extra, c => CategorySum(expenses, c));
      SumIndicator(cats, e.category, e.amount, extra);
    }
  }

  /** The chart's per-category totals add up to the home expense total. */
  lemma CategoryTotalsSum(expenses: seq<Expense>)
    ensures Sum(CategoryTotals(expenses), RealValue) == HomeTotals(expenses, []).totalExpense
  {
    var cats := Categories(expenses);
    SumPointwise(CategoryTotals(expenses), RealValue, cats, c => CategorySum(expenses, c));
    CategorySumsCover(expenses, cats);
  }

  // ---------------------------------------------------------------------
  // Income table and currency conversion

  /** The KHR column: USD amounts times the rate, anything else as entered. */
  function KhrValue(i: Income): (khr: real)
    ensures i.currency == "USD" ==> khr == UsdValue(i) * UsdToKhr
    ensures i.currency != "USD" ==> khr == i.amount
  {
    if i.currency == "USD" then i.amount * UsdToKhr else i.amount
  }

  /** The USD column: KHR amounts divided by the rate, anything else as entered. */
  function UsdValue(i: Income): (usd: real)
    ensures i.currency == "KHR" ==> usd * UsdToKhr == i.amount
    ensures i.currency != "KHR" ==> usd == i.amount
  {
    if i.currency == "KHR" then i.amount / UsdToKhr else i.amount
  }

  /** In either known currency the two columns are the same value at the fixed rate;
      any other currency code passes through unchanged in both. */
  lemma ColumnsAgree(i: Income)
    ensures i.currency == "USD" || i.currency == "KHR" ==> KhrValue(i) == UsdValue(i) * UsdToKhr
    ensures i.currency != "USD" && i.currency != "KHR" ==> KhrValue(i) == UsdValue(i) == i.amount
  {
  }

  /** `renderIncome`'s loop: one row per income and `totalUSD` accumulated from 0. */
  method IncomeTable(incomes: seq<Income>) returns (rows: seq<Row>, totalUsd: real)
    ensures |rows| == |incomes|
    ensures forall k :: 0 <= k < |incomes| ==> rows[k] == Row(KhrValue(incomes[k]), UsdValue(incomes[k]))
    ensures totalUsd == Sum(incomes, UsdValue)
  {
    rows := [];
    totalUsd := 0.0;
    var k := 0;
    while k < |incomes|
      invariant 0 <= k <= |incomes|
      invariant |rows| == k
      invariant forall j :: 0 <= j < k ==> rows[j] == Row(KhrValue(incomes[j]), UsdValue(incomes[j]))
      invariant totalUsd == Sum(incomes[..k], UsdValue)
    {
      var i := incomes[k];
      var khr := if i.currency == "USD" then i.amount * UsdToKhr else i.amount;
      var usd := if i.currency == "KHR" then i.amount / UsdToKhr else i.amount;
      totalUsd := totalUsd + usd;
      rows := rows + [Row(khr, usd)];
      assert incomes[..k + 1][..k] == incomes[..k];
      k := k + 1;
    }
    assert incomes[..k] == incomes;
  }

  /** Without KHR incomes the converted USD total is the home screen's raw income total. */
  lemma {:induction false} UsdTotalWithoutKhr(incomes: seq<Income>)
    requires forall k :: 0 <= k < |incomes| ==> incomes[k].currency != "KHR"
    ensures Sum(incomes, UsdValue) == HomeTotals([], incomes).totalIncome
  {
    SumPointwise(incomes, UsdValue, incomes, IncomeAmount);
  }

  /** When every income is in USD or KHR, the KHR column total is the USD total at the rate. */
  lemma {:induction false} KhrTotalIsRateTimesUsdTotal(incomes: seq<Income>)
    requires forall k :: 0 <= k < |incomes| ==> incomes[k].currency == "USD" || incomes[k].currency == "KHR"
    ensures Sum(incomes, KhrValue) == Sum(incomes, UsdValue) * UsdToKhr
    decreases |incomes|
  {
    if |incomes| > 0 {
      var last := incomes[|incomes| - 1];
      KhrTotalIsRateTimesUsdTotal(incomes[..|incomes| - 1]);
      ColumnsAgree(last);
    }
  }

  // ---------------------------------------------------------------------
  // The two lists

  class Book {
    var expenses: seq<Expense>
    var incomes: seq<Income>
    /** What `localStorage['expenses']` and `localStorage['incomes']` hold. */
    ghost var storedExpenses: seq<Expense>
    ghost var storedIncomes: seq<Income>

    /** Every mutation saves straight away, so storage mirrors memory. */
    ghost predicate Valid()
      reads this
    {
      storedExpenses == expenses && storedIncomes == incomes
    }

    /** The two loads at start-up, `JSON.parse(localStorage.getItem(key)) || []`. */
    constructor Load(savedExpenses: Option<seq<Expense>>, savedIncomes: Option<seq<Income>>)
      ensures Valid()
      ensures expenses == OrEmpty(savedExpenses) && incomes == OrEmpty(savedIncomes)
    {
      expenses := OrEmpty(savedExpenses);
      incomes := OrEmpty(savedIncomes);
      storedExpenses := expenses;
      storedIncomes := incomes;
    }

    /** The expense form's submit handler. */
    method SubmitExpense(f: ExpenseForm, id: Id) returns (added: bool)
      requires Valid()
      modifies this
      ensures Valid() && incomes == old(incomes)
      ensures added <==> NewExpense(f, id).Some?
      ensures added ==> expenses == old(expenses) + [NewExpense(f, id).value]
      ensures !added ==> expenses == old(expenses)
      ensures old(AllWellFormed(expenses)) ==> AllWellFormed(expenses)
    {
      var e := NewExpense(f, id);
      if e.None? {
        added := false;
        return;
      }
      expenses := expenses + [e.value];
      storedExpenses := expenses;
      added := true;
    }

    /** The expense delete button. */
    method DeleteExpense(id: Id)
      requires Valid()
      modifies this
      ensures Valid() && incomes == old(incomes)
      ensures expenses == RemoveExpense(old(expenses), id)
      ensures old(AllWellFormed(expenses)) ==> AllWellFormed(expenses)
    {
      if AllWellFormed(expenses) {
        RemoveExpenseKeepsWellFormed(expenses, id);
      }
      expenses := RemoveExpense(expenses, id);
      storedExpenses := expenses;
    }

    /** The expense edit button: an unknown id does nothing; otherwise the
        first match is written back into the form and every entry with
        that id is removed. */
    method EditExpense(id: Id) returns (prefill: Option<ExpenseForm>)
      requires Valid()
      modifies this
      ensures Valid() && incomes == old(incomes)
      ensures prefill.None? <==> forall k :: 0 <= k < |old(expenses)| ==> old(expenses)[k].id != id
      ensures prefill.None? ==> expenses == old(expenses)
      ensures prefill.Some? ==> prefill == Some(ExpensePrefill(Find(old(expenses), ExpenseHasId(id)).value))
      ensures prefill.Some? ==> expenses == RemoveExpense(old(expenses), id)
      ensures old(AllWellFormed(expenses)) ==> AllWellFormed(expenses)
    {
      var found := Find(expenses, ExpenseHasId(id));
      if found.None? {
        return None;
      }
      prefill := Some(ExpensePrefill(found.value));
      if AllWellFormed(expenses) {
        RemoveExpenseKeepsWellFormed(expenses, id);
      }
      expenses := RemoveExpense(expenses, id);
      storedExpenses := expenses;
    }

    /** The income form's submit handler. */
    method SubmitIncome(f: IncomeForm, id: Id) returns (added: bool)
      requires Valid()
      modifies this
      ensures Valid() && expenses == old(expenses)
      ensures added <==> NewIncome(f, id).Some?
      ensures added ==> incomes == old(incomes) + [NewIncome(f, id).value]
      ensures !added ==> incomes == old(incomes)
    {
      var i := NewIncome(f, id);
      if i.None? {
        added := false;
        return;
      }
      incomes := incomes + [i.value];
      storedIncomes := incomes;
      added := true;
    }

    /** The income delete button. */
    method DeleteIncome(id: Id)
      requires Valid()
      modifies this
      ensures Valid() && expenses == old(expenses)
      ensures incomes == RemoveIncome(old(incomes), id)
    {
      incomes := RemoveIncome(incomes, id);
      storedIncomes := incomes;
    }

    /** The income edit button. */
    method EditIncome(id: Id) returns (prefill: Option<IncomeForm>)
      requires Valid()
      modifies this
      ensures Valid() && expenses == old(expenses)
      ensures prefill.None? <==> forall k :: 0 <= k < |old(incomes)| ==> old(incomes)[k].id != id
      ensures prefill.None? ==> incomes == old(incomes)
      ensures prefill.Some? ==> prefill == Some(IncomePrefill(Find(old(incomes), IncomeHasId(id)).value))
      ensures prefill.Some? ==> incomes == RemoveIncome(old(incomes), id)
    {
      var found := Find(incomes, IncomeHasId(id));
      if found.None? {
        return None;
      }
      prefill := Some(IncomePrefill(found.value));
      incomes := RemoveIncome(incomes, id);
      storedIncomes := incomes;
    }
  }
}
