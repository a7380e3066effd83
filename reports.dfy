/** The reports page: the pie of expense totals per category, and the bars of income and
    expense for the last six months. The month keys (`YYYY-MM`) and labels come from the
    clock and the locale, so they are parameters. */
module Reports {
  import opened Seqs
  import opened Text
  import opened Ledger
  import opened Store

  /** One slice of the pie: the category's label and its expense total. */
  datatype PieEntry = PieEntry(name: string, value: real)

  function EntryOf(table: map<string, string>, txs: seq<Transaction>): Category -> PieEntry
  {
    (c: Category) => PieEntry(Label(table, c), Spent(txs, c.name))
  }

  /** `pieData`: every category except `Salary`, mapped to its label and expense total,
      keeping the entries whose total is positive. */
  function PieData(table: map<string, string>, cats: seq<Category>, txs: seq<Transaction>): seq<PieEntry>
  {
    Filter((e: PieEntry) => e.value > 0.0, Map(EntryOf(table, txs), ExpenseCategories(cats)))
  }

  /** The categories that get a slice: not `Salary`, and something spent in them. */
  function InPie(txs: seq<Transaction>): Category -> bool
  {
    (c: Category) => c.name != "Salary" && Spent(txs, c.name) > 0.0
  }

  /** The pie has one entry per category that is not `Salary` and has a positive expense
      total, in category order; each entry carries that category's label and total. */
  lemma PieDataIsShownCategories(table: map<string, string>, cats: seq<Category>, txs: seq<Transaction>)
    ensures PieData(table, cats, txs) == Map(EntryOf(table, txs), Filter(InPie(txs), cats))
    ensures IsSubsequence(Filter(InPie(txs), cats), cats)
    ensures forall c :: c in Filter(InPie(txs), cats) <==> c in cats && c.name != "Salary" && Spent(txs, c.name) > 0.0
  {
    var positive := (e: PieEntry) => e.value > 0.0;
    var positiveSpent := (c: Category) => Spent(txs, c.name) > 0.0;
    FilterMap(EntryOf(table, txs), positive, positiveSpent, ExpenseCategories(cats));
    FilterFilter(NotSalary, positiveSpent, InPie(txs), cats);
    FilterSubsequence(InPie(txs), cats);
    FilterMembers(InPie(txs), cats);
    forall c | c in cats && InPie(txs)(c) ensures c in Filter(InPie(txs), cats) {
      var j :| 0 <= j < |cats| && cats[j] == c;
    }
  }

  /** Every slice is positive and is the expense total of a category other than `Salary`. */
  lemma PieValuesPositive(table: map<string, string>, cats: seq<Category>, txs: seq<Transaction>)
    ensures forall i :: 0 <= i < |PieData(table, cats, txs)| ==>
      PieData(table, cats, txs)[i].value > 0.0
      && exists c :: c in cats && c.name != "Salary" && PieData(table, cats, txs)[i] == PieEntry(Label(table, c), Spent(txs, c.name))
  {
    PieDataIsShownCategories(table, cats, txs);
    var shown := Filter(InPie(txs), cats);
    forall i | 0 <= i < |PieData(table, cats, txs)|
      ensures PieData(table, cats, txs)[i].value > 0.0
      ensures exists c :: c in cats && c.name != "Salary" && PieData(table, cats, txs)[i] == PieEntry(Label(table, c), Spent(txs, c.name))
    {
      assert shown[i] in shown;
      assert PieData(table, cats, txs)[i] == EntryOf(table, txs)(shown[i]);
    }
  }

  /** The number of months on the bar chart. */
  const Months := 6

  /** One bar: the month's label, its signed income total and its expense total. */
  datatype Bar = Bar(name: string, income: real, expense: real)

  /** `tx.date.startsWith(monthKey)`. */
  function InMonth(key: string): Transaction -> bool
  {
    (t: Transaction) => StartsWith(t.date, key)
  }

  function IncomeInMonth(key: string): Transaction -> bool
  {
    (t: Transaction) => StartsWith(t.date, key) && IsIncome(t)
  }

  function ExpenseInMonth(key: string): Transaction -> bool
  {
    (t: Transaction) => StartsWith(t.date, key) && IsExpense(t)
  }

  /** The month's income: signed amounts of its income records. */
  function MonthIncome(txs: seq<Transaction>, key: string): real
  {
    Sum(Amount, Filter(IncomeInMonth(key), txs))
  }

  /** The month's expense: absolute amounts of its expense records. */
  function MonthExpense(txs: seq<Transaction>, key: string): real
  {
    Sum(AbsAmount, Filter(ExpenseInMonth(key), txs))
  }

  /** The bar of the month `ago` months back; `keys[ago]` and `labels[ago]` are its
      `YYYY-MM` key and its label. */
  function BarFor(txs: seq<Transaction>, keys: seq<string>, labels: seq<string>, ago: nat): Bar
    requires ago < |keys| && ago < |labels|
  {
    Bar(labels[ago], MonthIncome(txs, keys[ago]), MonthExpense(txs, keys[ago]))
  }

  /** `barData`: the loop from five months ago down to the current month, pushing one bar
      per month. */
  method BarData(txs: seq<Transaction>, keys: seq<string>, labels: seq<string>) returns (bars: seq<Bar>)
    requires |keys| == Months && |labels| == Months
    ensures |bars| == Months
    ensures forall j :: 0 <= j < Months ==> bars[j] == BarFor(txs, keys, labels, Months - 1 - j)
  {
    bars := [];
    var i := Months - 1;
    while i >= 0
      invariant -1 <= i < Months
      invariant |bars| == Months - 1 - i
      invariant forall j :: 0 <= j < |bars| ==> bars[j] == BarFor(txs, keys, labels, Months - 1 - j)
    {
      var key := keys[i];
      var monthly := Filter(InMonth(key), txs);
      var income := Sum(Amount, Filter(IsIncome, monthly));
      var expense := Sum(AbsAmount, Filter(IsExpense, monthly));
      BarStep(txs, keys, labels, i);
      bars := bars + [Bar(labels[i], income, expense)];
      i := i - 1;
    }
  }

  /** The bar one pass of the loop pushes is the month's bar. */
  lemma BarStep(txs: seq<Transaction>, keys: seq<string>, labels: seq<string>, i: nat)
    requires i < |keys| && i < |labels|
    ensures var monthly := Filter(InMonth(keys[i]), txs);
            Bar(labels[i], Sum(Amount, Filter(IsIncome, monthly)), Sum(AbsAmount, Filter(IsExpense, monthly)))
            == BarFor(txs, keys, labels, i)
  {
    MonthTotals(txs, keys[i]);
  }

  /** Filtering the month's records by type is filtering the list by month and type. */
  lemma MonthTotals(txs: seq<Transaction>, key: string)
    ensures Sum(Amount, Filter(IsIncome, Filter(InMonth(key), txs))) == MonthIncome(txs, key)
    ensures Sum(AbsAmount, Filter(IsExpense, Filter(InMonth(key), txs))) == MonthExpense(txs, key)
  {
    FilterFilter(InMonth(key), IsIncome, IncomeInMonth(key), txs);
    FilterFilter(InMonth(key), IsExpense, ExpenseInMonth(key), txs);
  }

  /** A record falls in a month exactly when its date starts with the month's key; two
      different keys of the same length never share a record. */
  lemma MonthsDisjoint(k1: string, k2: string, t: Transaction)
    requires |k1| == |k2| && k1 != k2
    ensures !(InMonth(k1)(t) && InMonth(k2)(t))
  {
  }

  /** A month's bucket holds exactly the records of the list dated in that month, in order. */
  lemma MonthBucketMembers(txs: seq<Transaction>, key: string)
    ensures forall t :: t in Filter(InMonth(key), txs) <==> t in txs && StartsWith(t.date, key)
    ensures IsSubsequence(Filter(InMonth(key), txs), txs)
  {
    FilterMembers(InMonth(key), txs);
    FilterSubsequence(InMonth(key), txs);
    forall t | t in txs && StartsWith(t.date, key) ensures t in Filter(InMonth(key), txs) {
      var j :| 0 <= j < |txs| && txs[j] == t;
    }
  }

  /** A month's expense bar is between 0 and the list's total expense. */
  lemma MonthExpenseBounded(txs: seq<Transaction>, key: string)
    ensures 0.0 <= MonthExpense(txs, key) <= TotalExpense(txs)
  {
    FilterFilter(IsExpense, InMonth(key), ExpenseInMonth(key), txs);
    SumFilterLe(AbsAmount, InMonth(key), Filter(IsExpense, txs));
    SumNonNegative(AbsAmount, Filter(ExpenseInMonth(key), txs));
  }

  /** Two different months of the same key length together spend no more than the list. */
  lemma TwoMonthsExpenseBounded(txs: seq<Transaction>, k1: string, k2: string)
    requires |k1| == |k2| && k1 != k2
    ensures MonthExpense(txs, k1) + MonthExpense(txs, k2) <= TotalExpense(txs)
  {
    var exps := Filter(IsExpense, txs);
    var notK1 := (t: Transaction) => !InMonth(k1)(t);
    FilterFilter(IsExpense, InMonth(k1), ExpenseInMonth(k1), txs);
    FilterFilter(IsExpense, InMonth(k2), ExpenseInMonth(k2), txs);
    // the records of k2 are the records outside k1 that are in k2
    assert forall t :: InMonth(k2)(t) ==> notK1(t);
    FilterFilter(notK1, InMonth(k2), InMonth(k2), exps);
    SumSplit(AbsAmount, InMonth(k1), notK1, exps);
    SumFilterLe(AbsAmount, InMonth(k2), Filter(notK1, exps));
  }
}
