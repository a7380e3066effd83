/** The records the app keeps and the sums every page computes over the transaction list.
    Amounts are exact reals; the source uses JavaScript floating point. */
module Ledger {
  import opened Seqs

  /** A transaction's `type`: `'income'`, `'expense'`, or any other string found in stored data. */
  datatype Kind = Income | Expense | OtherKind(name: string)

  /** Amounts are signed: negative for an expense, positive for an income.
      `description` is `''` when the record has none. */
  datatype Transaction = Transaction(
    id: int, title: string, amount: real, kind: Kind,
    date: string, category: string, description: string)

  /** System categories use translation keys as names; custom ones use literal names. */
  datatype Category = Category(id: string, name: string, color: string, isSystem: bool)

  /** An element of a parsed array: `null`, some other non-object value, or a record. */
  datatype RawEntry = Null | NotObject | Obj(tx: Transaction)

  /** A parsed value that should be a transaction array. */
  datatype RawList = NotArray | Array(entries: seq<RawEntry>)

  /** A savings goal. */
  datatype Goal = Goal(id: int, name: string, target: real, current: real, color: string)

  /** A subscription's `cost` as stored: absent (`undefined`), a number, or a value
      `Number(...)` cannot read. */
  datatype Cost = NoCost | Price(value: real) | NotNumeric

  /** `billingDay` is a whole number; `0` stands for every falsy value (`0`, `NaN`, absent). */
  datatype Subscription = Subscription(id: int, name: string, cost: Cost, billingDay: int, category: string)

  /** An element of a parsed subscription array. */
  datatype RawSub = NullSub | SubObj(sub: Subscription)

  function Abs(x: real): (r: real)
    ensures r >= 0.0 && (r == x || r == -x)
  {
    if x < 0.0 then -x else x
  }

  predicate IsIncome(t: Transaction) { t.kind == Income }
  predicate IsExpense(t: Transaction) { t.kind == Expense }
  function Amount(t: Transaction): real { t.amount }
  function AbsAmount(t: Transaction): real { Abs(t.amount) }

  /** The filter `t.type === 'expense' && t.category === c`. */
  function ExpenseIn(c: string): Transaction -> bool
  {
    t => IsExpense(t) && t.category == c
  }

  /** The sign convention: incomes are stored positive and expenses negative. */
  predicate SignConvention(t: Transaction)
  {
    (IsIncome(t) ==> t.amount >= 0.0) && (IsExpense(t) ==> t.amount <= 0.0)
  }

  /** `totalIncome`: the signed amounts of the income transactions, added up. */
  function TotalIncome(txs: seq<Transaction>): real
  {
    Sum(Amount, Filter(IsIncome, txs))
  }

  /** `totalExpense`: the absolute amounts of the expense transactions, added up. */
  function TotalExpense(txs: seq<Transaction>): (r: real)
    ensures r >= 0.0
  {
    SumNonNegative(AbsAmount, Filter(IsExpense, txs));
    Sum(AbsAmount, Filter(IsExpense, txs))
  }

  function Balance(txs: seq<Transaction>): real
  {
    TotalIncome(txs) - TotalExpense(txs)
  }

  /** `calculateSpent(c)`: the absolute amounts of the expenses booked under category `c`. */
  function Spent(txs: seq<Transaction>, c: string): (r: real)
    ensures r >= 0.0
  {
    SumNonNegative(AbsAmount, Filter(ExpenseIn(c), txs));
    Sum(AbsAmount, Filter(ExpenseIn(c), txs))
  }

  lemma MulStrict(a: real, b: real, c: real)
    requires a < b && c > 0.0
    ensures a * c < b * c
  {
  }

  /** Scaling by a positive factor keeps the comparison with 1. */
  lemma ScaledVsOne(q: real, c: real)
    requires c > 0.0
    ensures q >= 1.0 <==> q * c >= c
  {
    if q > 1.0 {
      MulStrict(1.0, q, c);
    } else if q < 1.0 {
      MulStrict(q, 1.0, c);
    }
  }

  /** Scaling by a positive factor keeps the sign. */
  lemma ScaledVsZero(q: real, c: real)
    requires c > 0.0
    ensures q > 0.0 <==> q * c > 0.0
    ensures q == 0.0 <==> q * c == 0.0
  {
    if q > 0.0 {
      MulStrict(0.0, q, c);
    } else if q < 0.0 {
      MulStrict(q, 0.0, c);
    }
  }

  /** The share `spent / limit` of a positive limit, compared with 1 and with 0. */
  lemma ShareOfLimit(spent: real, limit: real)
    requires limit > 0.0
    ensures spent / limit >= 1.0 <==> spent >= limit
    ensures spent / limit > 0.0 <==> spent > 0.0
    ensures spent / limit == 0.0 <==> spent == 0.0
  {
    var q := spent / limit;
    assert q * limit == spent;
    ScaledVsOne(q, limit);
    ScaledVsZero(q, limit);
  }

  /** A percentage of a positive limit is non-negative, is 0 only for nothing spent, and
      reaches 100 exactly when the limit is reached. */
  lemma RatioReachesHundred(spent: real, limit: real)
    requires limit > 0.0 && spent >= 0.0
    ensures spent / limit * 100.0 >= 100.0 <==> spent >= limit
    ensures spent / limit * 100.0 >= 0.0
    ensures spent / limit * 100.0 == 0.0 <==> spent == 0.0
  {
    ShareOfLimit(spent, limit);
  }

  /** The totals of a concatenation are the sums of the totals of the parts. */
  lemma TotalsAppend(a: seq<Transaction>, b: seq<Transaction>)
    ensures TotalIncome(a + b) == TotalIncome(a) + TotalIncome(b)
    ensures TotalExpense(a + b) == TotalExpense(a) + TotalExpense(b)
    ensures Balance(a + b) == Balance(a) + Balance(b)
    ensures forall c :: Spent(a + b, c) == Spent(a, c) + Spent(b, c)
  {
    FilterAppend(IsIncome, a, b);
    SumAppend(Amount, Filter(IsIncome, a), Filter(IsIncome, b));
    FilterAppend(IsExpense, a, b);
    SumAppend(AbsAmount, Filter(IsExpense, a), Filter(IsExpense, b));
    forall c ensures Spent(a + b, c) == Spent(a, c) + Spent(b, c) {
      FilterAppend(ExpenseIn(c), a, b);
      SumAppend(AbsAmount, Filter(ExpenseIn(c), a), Filter(ExpenseIn(c), b));
    }
  }

  /** What one category has spent is part of the total expense. */
  lemma SpentAtMostTotalExpense(txs: seq<Transaction>, c: string)
    ensures Spent(txs, c) <= TotalExpense(txs)
  {
    FilterFilter(IsExpense, (t: Transaction) => t.category == c, ExpenseIn(c), txs);
    SumFilterLe(AbsAmount, (t: Transaction) => t.category == c, Filter(IsExpense, txs));
  }

  predicate IsIncomeOrExpense(t: Transaction) { IsIncome(t) || IsExpense(t) }

  /** The signed sum of the income and expense amounts. */
  function SignedTotal(txs: seq<Transaction>): real
  {
    Sum(Amount, Filter(IsIncomeOrExpense, txs))
  }

  /** The totals of a non-empty list: the first transaction's share plus the rest's totals. */
  lemma TotalsUnfold(txs: seq<Transaction>)
    requires |txs| > 0
    ensures TotalIncome(txs) == (if IsIncome(txs[0]) then txs[0].amount else 0.0) + TotalIncome(txs[1..])
    ensures TotalExpense(txs) == (if IsExpense(txs[0]) then Abs(txs[0].amount) else 0.0) + TotalExpense(txs[1..])
    ensures SignedTotal(txs) == (if IsIncomeOrExpense(txs[0]) then txs[0].amount else 0.0) + SignedTotal(txs[1..])
  {
    FilterSumUnfold(Amount, IsIncome, txs);
    FilterSumUnfold(AbsAmount, IsExpense, txs);
    FilterSumUnfold(Amount, IsIncomeOrExpense, txs);
  }

  /** Under the sign convention the balance is the signed sum of all income and expense
      amounts, and the income total is non-negative. */
  lemma {:induction false} BalanceIsSignedTotal(txs: seq<Transaction>)
    requires forall i :: 0 <= i < |txs| ==> SignConvention(txs[i])
    ensures Balance(txs) == SignedTotal(txs)
    ensures TotalIncome(txs) >= 0.0
  {
    if |txs| > 0 {
      BalanceIsSignedTotal(txs[1..]);
      TotalsUnfold(txs);
    }
  }

  /** `txs.filter(t => t.id !== id)`: delete by id. */
  function WithoutId(txs: seq<Transaction>, id: int): (r: seq<Transaction>)
    ensures |r| <= |txs|
  {
    Filter((t: Transaction) => t.id != id, txs)
  }

  /** No two records share an id. */
  predicate UniqueIds(txs: seq<Transaction>)
  {
    forall i, j :: 0 <= i < j < |txs| ==> txs[i].id != txs[j].id
  }

  /** Deleting by id keeps exactly the records with another id, in their original order. */
  lemma WithoutIdKeepsOthers(txs: seq<Transaction>, id: int)
    ensures forall t :: t in WithoutId(txs, id) <==> t in txs && t.id != id
    ensures IsSubsequence(WithoutId(txs, id), txs)
  {
    var p := (t: Transaction) => t.id != id;
    FilterMembers(p, txs);
    FilterSubsequence(p, txs);
    forall t | t in txs && t.id != id ensures t in WithoutId(txs, id) {
      var i :| 0 <= i < |txs| && txs[i] == t;
    }
  }

  /** With unique ids, deleting the id of the record at `i` removes that record and nothing else. */
  lemma WithoutIdRemovesOne(txs: seq<Transaction>, i: nat)
    requires UniqueIds(txs) && i < |txs|
    ensures WithoutId(txs, txs[i].id) == txs[..i] + txs[i + 1..]
  {
    FilterRemovesOne((t: Transaction) => t.id != txs[i].id, txs, i);
  }

  /** The demonstration list loaded when nothing usable is stored. */
  const MockTransactions: seq<Transaction> := [
    Transaction(1, "tx_1", 850.00, Income, "2026-01-05", "cat_freelance", "Logo design for local coffee shop"),
    Transaction(2, "tx_2", -145.20, Expense, "2026-01-04", "cat_food", "Trader Joes haul"),
    Transaction(3, "tx_3", -15.99, Expense, "2025-12-03", "cat_entertainment", "Monthly subscription"),
    Transaction(4, "tx_4", -6.50, Expense, "2025-12-03", "cat_food", "Morning coffee"),
    Transaction(5, "tx_5", -24.00, Expense, "2025-11-01", "cat_transport", "Ride to airport"),
    Transaction(6, "tx_6", -600.00, Expense, "2025-11-01", "cat_rent", "November Rent"),
    Transaction(7, "tx_7", 50.00, Income, "2025-10-28", "cat_gift", "Birthday money"),
    Transaction(8, "tx_8", -32.40, Expense, "2025-10-25", "cat_health", "Vitamins"),
    Transaction(9, "tx_9", -85.00, Expense, "2025-09-24", "cat_shopping", "Nike sale"),
    Transaction(10, "tx_10", -120.00, Expense, "2025-08-20", "cat_edu", "Physics and Calculus books")
  ]

  /** The totals as one left-to-right pass that looks at each record once, the way
      `reduce` runs: an independent definition of `TotalIncome` and `TotalExpense`. */
  function RunningIncome(txs: seq<Transaction>): real
  {
    if |txs| == 0 then 0.0 else (if IsIncome(txs[0]) then txs[0].amount else 0.0) + RunningIncome(txs[1..])
  }

  function RunningExpense(txs: seq<Transaction>): real
  {
    if |txs| == 0 then 0.0 else (if IsExpense(txs[0]) then Abs(txs[0].amount) else 0.0) + RunningExpense(txs[1..])
  }

  /** Filtering then summing is the same as one pass that adds the matching records. */
  lemma {:induction false} TotalsAreRunningSums(txs: seq<Transaction>)
    ensures TotalIncome(txs) == RunningIncome(txs)
    ensures TotalExpense(txs) == RunningExpense(txs)
  {
    if |txs| > 0 {
      TotalsUnfold(txs);
      TotalsAreRunningSums(txs[1..]);
    }
  }

  /** The demonstration data: income 900.00, expense 1029.09, balance -129.09. */
  lemma MockTotals()
    ensures TotalIncome(MockTransactions) == 900.00
    ensures TotalExpense(MockTransactions) == 1029.09
    ensures Balance(MockTransactions) == -129.09
  {
    TotalsAreRunningSums(MockTransactions);
    MockRunningIncome();
    MockRunningExpense();
  }

  lemma MockRunningIncome()
    ensures RunningIncome(MockTransactions) == 900.00
  {
    var m := MockTransactions;
    assert m[10..] == [];
    assert RunningIncome(m[9..]) == 0.0;
    assert RunningIncome(m[8..]) == 0.0;
    assert RunningIncome(m[7..]) == 0.0;
    assert RunningIncome(m[6..]) == 50.00;
    assert RunningIncome(m[5..]) == 50.00;
    assert RunningIncome(m[4..]) == 50.00;
    assert RunningIncome(m[3..]) == 50.00;
    assert RunningIncome(m[2..]) == 50.00;
    assert RunningIncome(m[1..]) == 50.00;
    assert RunningIncome(m[0..]) == 900.00;
    assert m[0..] == m;
  }

  lemma MockRunningExpense()
    ensures RunningExpense(MockTransactions) == 1029.09
  {
    var m := MockTransactions;
    assert m[10..] == [];
    assert RunningExpense(m[9..]) == 120.00;
    assert RunningExpense(m[8..]) == 205.00;
    assert RunningExpense(m[7..]) == 237.40;
    assert RunningExpense(m[6..]) == 237.40;
    assert RunningExpense(m[5..]) == 837.40;
    assert RunningExpense(m[4..]) == 861.40;
    assert RunningExpense(m[3..]) == 867.90;
    assert RunningExpense(m[2..]) == 883.89;
    assert RunningExpense(m[1..]) == 1029.09;
    assert RunningExpense(m[0..]) == 1029.09;
    assert m[0..] == m;
  }

  /** Every category but the income category `Salary` is an expense category. */
  predicate NotSalary(c: Category) { c.name != "Salary" }

  /** `categories.filter(c => c.name !== 'Salary')`. */
  function ExpenseCategories(cats: seq<Category>): seq<Category>
  {
    Filter(NotSalary, cats)
  }

  /** The expense categories are every category except the one named `Salary`, in order. */
  lemma ExpenseCategoriesExcludeSalary(cats: seq<Category>)
    ensures forall c :: c in ExpenseCategories(cats) <==> c in cats && c.name != "Salary"
    ensures IsSubsequence(ExpenseCategories(cats), cats)
  {
    FilterMembers(NotSalary, cats);
    FilterSubsequence(NotSalary, cats);
    forall c | c in cats && c.name != "Salary" ensures c in ExpenseCategories(cats) {
      var i :| 0 <= i < |cats| && cats[i] == c;
    }
  }
}
