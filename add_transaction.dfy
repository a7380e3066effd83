/** The add page for an expense or an income: the default category, the category lists,
    and the new record built from the form. The new id (`Date.now()`) is a parameter. */
module AddTransaction {
  import opened Seqs
  import opened Ledger
  import opened Store

  /** The page is the expense page exactly when its `type` is `'expense'`; any other type
      is treated as income by the lists and the sign rule. */
  predicate IsExpensePage(kind: Kind) { kind == Expense }

  /** The expense page starts on `cat_food` when such a category exists, else on `Food`;
      the income page starts on `Salary`. */
  function DefaultCategory(kind: Kind, cats: seq<Category>): (r: string)
    ensures IsExpensePage(kind) && (exists c :: c in cats && c.name == "cat_food") ==> r == "cat_food"
    ensures IsExpensePage(kind) && (forall c :: c in cats ==> c.name != "cat_food") ==> r == "Food"
    ensures !IsExpensePage(kind) ==> r == "Salary"
  {
    if IsExpensePage(kind) then
      if exists c :: c in cats && c.name == "cat_food" then "cat_food" else "Food"
    else "Salary"
  }

  /** The form: the typed amount, the chosen category, the date and the description. */
  datatype AddForm = AddForm(amount: real, category: string, date: string, description: string)

  /** The income categories offered: `Salary`, `cat_freelance`, `cat_gift` and every custom one. */
  predicate IncomeCategory(c: Category)
  {
    c.name == "Salary" || c.name == "cat_freelance" || c.name == "cat_gift" || !c.isSystem
  }

  /** `availableCategories`. */
  function AvailableCategories(kind: Kind, cats: seq<Category>): seq<Category>
  {
    if IsExpensePage(kind) then ExpenseCategories(cats) else Filter(IncomeCategory, cats)
  }

  /** `displayCategories`: the expense page hides `Salary`, the income page shows all. */
  function DisplayCategories(kind: Kind, cats: seq<Category>): seq<Category>
  {
    if IsExpensePage(kind) then ExpenseCategories(cats) else cats
  }

  /** What each page offers and shows: the expense page exactly the categories other than
      `Salary`; the income page offers the income categories and shows everything; both
      lists keep category order, and what is offered is always shown. */
  lemma CategoryLists(kind: Kind, cats: seq<Category>)
    ensures IsExpensePage(kind) ==>
      forall c :: c in DisplayCategories(kind, cats) <==> c in cats && c.name != "Salary"
    ensures !IsExpensePage(kind) ==> DisplayCategories(kind, cats) == cats
    ensures forall c :: c in AvailableCategories(kind, cats) <==>
      c in cats && if IsExpensePage(kind) then c.name != "Salary" else IncomeCategory(c)
    ensures IsSubsequence(AvailableCategories(kind, cats), DisplayCategories(kind, cats))
  {
    ExpenseCategoriesExcludeSalary(cats);
    if IsExpensePage(kind) {
      SubsequenceRefl(ExpenseCategories(cats));
    } else {
      FilterMembers(IncomeCategory, cats);
      FilterSubsequence(IncomeCategory, cats);
      forall c | c in cats && IncomeCategory(c) ensures c in Filter(IncomeCategory, cats) {
        var i :| 0 <= i < |cats| && cats[i] == c;
      }
    }
  }

  /** `newTx`: the page's type, the category as title and category, and the typed amount
      made negative on the expense page and positive otherwise. */
  function NewTx(kind: Kind, f: AddForm, freshId: int): (t: Transaction)
    ensures t.id == freshId && t.kind == kind
    ensures t.title == f.category && t.category == f.category
    ensures t.date == f.date && t.description == f.description
    ensures IsExpensePage(kind) ==> t.amount <= 0.0
    ensures !IsExpensePage(kind) ==> t.amount >= 0.0
    ensures Abs(t.amount) == Abs(f.amount)
  {
    var size := Abs(f.amount);
    Transaction(freshId, f.category, if IsExpensePage(kind) then -size else size, kind,
                f.date, f.category, f.description)
  }

  /** A new record keeps the sign convention, and adding it moves the totals by its size:
      the expense total on the expense page, the income total on the income page. */
  lemma NewTxMovesTotals(kind: Kind, f: AddForm, freshId: int, txs: seq<Transaction>)
    ensures SignConvention(NewTx(kind, f, freshId))
    ensures TotalExpense([NewTx(kind, f, freshId)] + txs)
            == TotalExpense(txs) + (if kind == Expense then Abs(f.amount) else 0.0)
    ensures TotalIncome([NewTx(kind, f, freshId)] + txs)
            == TotalIncome(txs) + (if kind == Income then Abs(f.amount) else 0.0)
  {
    var t := NewTx(kind, f, freshId);
    TotalsAppend([t], txs);
    FilterSingleton(IsIncome, t);
    FilterSingleton(IsExpense, t);
    assert Sum(Amount, [t]) == t.amount;
    assert Sum(AbsAmount, [t]) == Abs(t.amount);
  }

  /** `handleSubmit`: the new record goes to the front of the list through the store. */
  method Submit(store: Store, kind: Kind, f: AddForm, freshId: int)
    modifies store, store.storage
    ensures store.transactions == [NewTx(kind, f, freshId)] + old(store.transactions)
    ensures store.storage.entries == old(store.storage.entries)["transactions" := TxList(Array(AsRaw(store.transactions)))]
    ensures store.categories == old(store.categories) && store.budgetLimits == old(store.budgetLimits)
    ensures store.currency == old(store.currency) && store.language == old(store.language)
  {
    store.AddTransaction(NewTx(kind, f, freshId));
  }
}
