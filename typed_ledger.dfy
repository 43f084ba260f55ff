/** The typed ledger of script.js: one list of transactions, each tagged
    income or expense, kept in a module-level array that the form handler
    pushes to, delete and import reassign, and rendering sorts in place. */
module TypedLedger {
  import opened Seqs
  import opened JsValues

  type Id = string

  /** A calendar day, as `new Date(date)` orders it. */
  type Day = int

  /** The `type` field: the form offers "income" and "expense"; an imported
      record may carry any other label. */
  datatype Kind = Income | Expense | OtherKind(name: OtherLabel)

  /** A label other than the two the form offers. */
  type OtherLabel = s: string | s != "income" && s != "expense" witness "other"

  datatype Transaction = Transaction(
    id: Id, kind: Kind, amount: real, category: string, note: string, date: Day)

  /** The add form as read by the submit handler; a blank date field is `None`. */
  datatype TxForm = TxForm(
    kind: Kind, amount: Number, category: string, note: string, date: Option<Day>)

  /** What `JSON.parse` made of an imported file. */
  datatype Parsed = Unparsable | NotAnArray | AnArray(items: seq<Transaction>)

  datatype ImportOutcome = Imported | Declined | InvalidFormat | ReadError

  datatype Totals = Totals(income: real, expense: real, balance: real)

  // ---------------------------------------------------------------------
  // Validation

  /** The submit handler's validation: a form is refused when its amount is
      zero or NaN, its trimmed category is blank, or its date is empty;
      otherwise it yields a transaction carrying the supplied id. */
  function NewTransaction(f: TxForm, id: Id): (r: Option<Transaction>)
    ensures r.None? <==> !Truthy(f.amount) || Trim(f.category) == [] || f.date.None?
    ensures r.Some? ==> r.value.id == id && r.value.kind == f.kind && f.amount == Num(r.value.amount)
    ensures r.Some? ==> r.value.amount != 0.0 && f.date == Some(r.value.date)
    ensures r.Some? ==> r.value.category != [] && r.value.category == Trim(f.category)
    ensures r.Some? ==> r.value.note == Trim(f.note)
  {
    var category := Trim(f.category);
    if !Truthy(f.amount) || category == [] || f.date.None? then None
    else Some(Transaction(id, f.kind, f.amount.value, category, Trim(f.note), f.date.value))
  }

  // ---------------------------------------------------------------------
  // Delete

  function KeepsOthers(id: Id): Transaction -> bool
  {
    (tx: Transaction) => tx.id != id
  }

  /** `transactions.filter(tx => tx.id !== id)`: every transaction with that id
      goes, every other stays as often as it was there, in the same order. */
  function RemoveId(s: seq<Transaction>, id: Id): (r: seq<Transaction>)
    ensures forall i :: 0 <= i < |r| ==> r[i].id != id
    ensures forall tx :: multiset(r)[tx] == if tx.id == id then 0 else multiset(s)[tx]
    ensures (forall i :: 0 <= i < |s| ==> s[i].id != id) ==> r == s
  {
    FilterFacts(s, KeepsOthers(id));
    Filter(s, KeepsOthers(id))
  }

  /** Deleting the transaction just added, when its id was fresh, gives back the old ledger. */
  lemma {:induction false} AddThenRemove(s: seq<Transaction>, tx: Transaction)
    requires forall i :: 0 <= i < |s| ==> s[i].id != tx.id
    ensures RemoveId(s + [tx], tx.id) == s
  {
    FilterAppend(s, [tx], KeepsOthers(tx.id));
    FilterKeepsAll(s, KeepsOthers(tx.id));
    assert Filter([tx], KeepsOthers(tx.id)) == [];
  }

  /** Removing an id keeps the relative order: it distributes over concatenation. */
  lemma RemoveIdAppend(a: seq<Transaction>, b: seq<Transaction>, id: Id)
    ensures RemoveId(a + b, id) == RemoveId(a, id) + RemoveId(b, id)
  {
    FilterAppend(a, b, KeepsOthers(id));
  }

  // ---------------------------------------------------------------------
  // Rendering order

  /** Newest first: dates never increase along the list. */
  predicate NewestFirst(s: seq<Transaction>)
  {
    forall i, j :: 0 <= i < j < |s| ==> s[i].date >= s[j].date
  }

  /** Places `tx` ahead of the first transaction that is not newer than it. */
  function Insert(tx: Transaction, s: seq<Transaction>): (r: seq<Transaction>)
    requires NewestFirst(s)
    ensures NewestFirst(r)
    ensures multiset(r) == multiset(s) + multiset{tx}
    ensures r[0] == tx || (s != [] && r[0] == s[0])
  {
    if s == [] || s[0].date <= tx.date then [tx] + s
    else
      var rest := Insert(tx, s[1..]);
      assert s == [s[0]] + s[1..];
      [s[0]] + rest
  }

  /** `transactions.sort((a, b) => new Date(b.date) - new Date(a.date))`, a stable sort. */
  function SortNewestFirst(s: seq<Transaction>): (r: seq<Transaction>)
    ensures NewestFirst(r)
    ensures multiset(r) == multiset(s)
  {
    if s == [] then []
    else
      assert s == [s[0]] + s[1..];
      Insert(s[0], SortNewestFirst(s[1..]))
  }

  // ---------------------------------------------------------------------
  // Summary

  function AmountOf(tx: Transaction): real { tx.amount }
  function IsIncome(tx: Transaction): bool { tx.kind == Income }
  function IsExpense(tx: Transaction): bool { tx.kind == Expense }

  /** `updateSummary`: filter by type, reduce the amounts, balance = income - expense. */
  function Summarize(s: seq<Transaction>): Totals
  {
    var income := Sum(Filter(s, IsIncome), AmountOf);
    var expense := Sum(Filter(s, IsExpense), AmountOf);
    Totals(income, expense, income - expense)
  }

  /** Income total as a sum over the whole ledger, counting 0 for non-income. */
  function IncomePart(tx: Transaction): real { if tx.kind == Income then tx.amount else 0.0 }
  function ExpensePart(tx: Transaction): real { if tx.kind == Expense then tx.amount else 0.0 }
  function OtherPart(tx: Transaction): real { if tx.kind.OtherKind? then tx.amount else 0.0 }

  lemma SummaryAsSums(s: seq<Transaction>)
    ensures Summarize(s).income == Sum(s, IncomePart)
    ensures Summarize(s).expense == Sum(s, ExpensePart)
  {
    SumFilter(s, IsIncome, AmountOf, IncomePart);
    SumFilter(s, IsExpense, AmountOf, ExpensePart);
  }

  /** The empty ledger sums to zero everywhere. */
  lemma SummaryEmpty()
    ensures Summarize([]) == Totals(0.0, 0.0, 0.0)
  {
  }

  /** How one more transaction moves the totals: an income raises income and
      balance, an expense raises expense and lowers balance, any other type
      changes nothing. */
  lemma SummaryAppend(s: seq<Transaction>, tx: Transaction)
    ensures var before, after := Summarize(s), Summarize(s + [tx]);
      match tx.kind
      case Income => after == Totals(before.income + tx.amount, before.expense, before.balance + tx.amount)
      case Expense => after == Totals(before.income, before.expense + tx.amount, before.balance - tx.amount)
      case OtherKind(_) => after == before
  {
    SummaryAsSums(s);
    SummaryAsSums(s + [tx]);
    SumAppend(s, [tx], IncomePart);
    SumAppend(s, [tx], ExpensePart);
    assert Sum([tx], IncomePart) == IncomePart(tx);
    assert Sum([tx], ExpensePart) == ExpensePart(tx);
  }

  /** Income and expense partition the typed part of the ledger: the sum of all
      amounts is income + expense + whatever other types carry. */
  lemma SummaryPartition(s: seq<Transaction>)
    ensures Sum(s, AmountOf) == Summarize(s).income + Summarize(s).expense + Sum(s, OtherPart)
  {
    SummaryAsSums(s);
    var typed := (tx: Transaction) => IncomePart(tx) + ExpensePart(tx);
    SumAdd(s, IncomePart, ExpensePart, typed);
    SumAdd(s, typed, OtherPart, AmountOf);
  }

  /** The totals depend only on which transactions are present, not their order. */
  lemma SummaryPermutation(a: seq<Transaction>, b: seq<Transaction>)
    requires multiset(a) == multiset(b)
    ensures Summarize(a) == Summarize(b)
  {
    SummaryAsSums(a);
    SummaryAsSums(b);
    SumPermutation(a, b, IncomePart);
    SumPermutation(a, b, ExpensePart);
  }

  // ---------------------------------------------------------------------
  // The ledger

  class Ledger {
    /** The module-level `transactions` array. */
    var transactions: seq<Transaction>
    /** What `localStorage['transactions']` holds, as written by `saveTransactions`. */
    ghost var stored: seq<Transaction>

    /** Memory and storage hold the same transactions; only rendering, which
        sorts without saving, makes their orders differ. */
    ghost predicate Valid()
      reads this
    {
      multiset(stored) == multiset(transactions)
    }

    /** `let transactions = loadTransactions()`: a missing key loads as the empty list. */
    constructor Load(saved: Option<seq<Transaction>>)
      ensures Valid()
      ensures transactions == OrEmpty(saved) && stored == transactions
    {
      transactions := OrEmpty(saved);
      stored := transactions;
    }

    /** The submit handler up to `saveTransactions`: a refused form changes
        nothing; an accepted one is appended last and saved. */
    method Add(f: TxForm, id: Id) returns (added: bool)
      requires Valid()
      modifies this
      ensures Valid()
      ensures added <==> NewTransaction(f, id).Some?
      ensures !added ==> transactions == old(transactions) && stored == old(stored)
      ensures added ==> transactions == old(transactions) + [NewTransaction(f, id).value]
      ensures added ==> stored == transactions
    {
      var tx := NewTransaction(f, id);
      if tx.None? {
        added := false;
        return;
      }
      transactions := transactions + [tx.value];
      stored := transactions;
      added := true;
    }

    /** `deleteTransaction`: when confirmed, every transaction with that id is
        removed and the rest saved; when declined, nothing changes. */
    method Delete(id: Id, confirmed: bool)
      requires Valid()
      modifies this
      ensures Valid()
      ensures !confirmed ==> transactions == old(transactions) && stored == old(stored)
      ensures confirmed ==> transactions == RemoveId(old(transactions), id) && stored == transactions
      ensures forall i :: confirmed && 0 <= i < |transactions| ==> transactions[i].id != id
    {
      if !confirmed {
        return;
      }
      transactions := RemoveId(transactions, id);
      stored := transactions;
    }

    /** `renderTransactions` sorts the list in place, newest first, and does
        not save: the transactions and their totals stay the same. */
    method Render()
      requires Valid()
      modifies this
      ensures Valid()
      ensures stored == old(stored)
      ensures NewestFirst(transactions)
      ensures multiset(transactions) == multiset(old(transactions))
      ensures Summarize(transactions) == Summarize(old(transactions))
    {
      if |transactions| == 0 {
        return;
      }
      var before := transactions;
      transactions := SortNewestFirst(transactions);
      SummaryPermutation(before, transactions);
    }

    /** The import reader: a parsed array, once confirmed, replaces the whole
        ledger and is saved; anything else leaves the ledger as it was. */
    method Import(payload: Parsed, confirmed: bool) returns (outcome: ImportOutcome)
      requires Valid()
      modifies this
      ensures Valid()
      ensures outcome == Imported <==> payload.AnArray? && confirmed
      ensures outcome == Imported ==> transactions == payload.items && stored == payload.items
      ensures outcome != Imported ==> transactions == old(transactions) && stored == old(stored)
      ensures payload.Unparsable? ==> outcome == ReadError
      ensures payload.NotAnArray? ==> outcome == InvalidFormat
      ensures payload.AnArray? && !confirmed ==> outcome == Declined
    {
      match payload
      case Unparsable =>
        outcome := ReadError;
      case NotAnArray =>
        outcome := InvalidFormat;
      case AnArray(items) =>
        if confirmed {
          transactions := items;
          stored := transactions;
          outcome := Imported;
        } else {
          outcome := Declined;
        }
    }
  }
}
