/** The calendar page: the records grouped by day (the part of the date before `T`), each
    day's income and expense totals, the badge on a day's tile and the selected day's panel. */
module Calendar {
  import opened Seqs
  import opened Dates
  import opened Ledger

  /** One day's entry: absolute amounts of its incomes and of its expenses, and all its
      records (of any type) in list order. */
  datatype DayData = DayData(income: real, expense: real, items: seq<Transaction>)

  /** `{ income: 0, expense: 0, items: [] }`. */
  const EmptyDay := DayData(0.0, 0.0, [])

  function OnDay(k: string): Transaction -> bool
  {
    (t: Transaction) => DayKey(t.date) == k
  }

  function IncomeOnDay(k: string): Transaction -> bool
  {
    (t: Transaction) => IsIncome(t) && DayKey(t.date) == k
  }

  function ExpenseOnDay(k: string): Transaction -> bool
  {
    (t: Transaction) => IsExpense(t) && DayKey(t.date) == k
  }

  /** The days that have at least one record. */
  function DayKeys(txs: seq<Transaction>): set<string>
  {
    set j | 0 <= j < |txs| :: DayKey(txs[j].date)
  }

  /** What the grouping holds for day `k`. */
  function DayOf(txs: seq<Transaction>, k: string): DayData
  {
    DayData(Sum(AbsAmount, Filter(IncomeOnDay(k), txs)),
            Sum(AbsAmount, Filter(ExpenseOnDay(k), txs)),
            Filter(OnDay(k), txs))
  }

  /** The grouping as a whole: one entry per day that has records. */
  function Grouped(txs: seq<Transaction>): map<string, DayData>
  {
    map k | k in DayKeys(txs) :: DayOf(txs, k)
  }

  /** A day without records has the empty entry. */
  lemma DayOfAbsent(txs: seq<Transaction>, k: string)
    requires k !in DayKeys(txs)
    ensures DayOf(txs, k) == EmptyDay
  {
    assert forall j :: 0 <= j < |txs| ==> DayKey(txs[j].date) in DayKeys(txs);
    FilterNone(IncomeOnDay(k), txs);
    FilterNone(ExpenseOnDay(k), txs);
    FilterNone(OnDay(k), txs);
  }

  /** A day's entry with one more record of that day. */
  function AddRecord(d: DayData, x: Transaction): DayData
  {
    DayData(d.income + (if IsIncome(x) then Abs(x.amount) else 0.0),
            d.expense + (if IsExpense(x) then Abs(x.amount) else 0.0),
            d.items + [x])
  }

  /** Appending one record changes only its own day's entry: it joins the items, and its
      absolute amount is added to the income or the expense total according to its type. */
  lemma DayOfSnoc(txs: seq<Transaction>, x: Transaction, k: string)
    ensures DayKey(x.date) != k ==> DayOf(txs + [x], k) == DayOf(txs, k)
    ensures DayKey(x.date) == k ==> DayOf(txs + [x], k) == AddRecord(DayOf(txs, k), x)
  {
    FilterAppend(IncomeOnDay(k), txs, [x]);
    FilterAppend(ExpenseOnDay(k), txs, [x]);
    FilterAppend(OnDay(k), txs, [x]);
    FilterSingleton(IncomeOnDay(k), x);
    FilterSingleton(ExpenseOnDay(k), x);
    FilterSingleton(OnDay(k), x);
    SumAppend(AbsAmount, Filter(IncomeOnDay(k), txs), Filter(IncomeOnDay(k), [x]));
    SumAppend(AbsAmount, Filter(ExpenseOnDay(k), txs), Filter(ExpenseOnDay(k), [x]));
  }

  /** `transactionsByDate[key] || { income: 0, expense: 0, items: [] }`. */
  function SelectedDay(grouped: map<string, DayData>, key: string): DayData
  {
    if key in grouped then grouped[key] else EmptyDay
  }

  /** The selected day's panel shows exactly that day's entry, the empty one included. */
  lemma SelectedDayIsDayOf(txs: seq<Transaction>, key: string)
    ensures SelectedDay(Grouped(txs), key) == DayOf(txs, key)
  {
    if key !in DayKeys(txs) {
      DayOfAbsent(txs, key);
    }
  }

  /** A map that holds `DayOf` for exactly the days of `txs`. */
  predicate GroupsPrefix(grouped: map<string, DayData>, txs: seq<Transaction>)
  {
    grouped.Keys == DayKeys(txs) && forall k :: k in grouped ==> grouped[k] == DayOf(txs, k)
  }

  /** Such a map is the grouping. */
  lemma GroupsIsGrouped(grouped: map<string, DayData>, txs: seq<Transaction>)
    requires GroupsPrefix(grouped, txs[..|txs|])
    ensures grouped == Grouped(txs)
  {
    assert txs[..|txs|] == txs;
  }

  lemma DayKeysSnoc(txs: seq<Transaction>, x: Transaction)
    ensures DayKeys(txs + [x]) == DayKeys(txs) + {DayKey(x.date)}
  {
    assert forall j :: 0 <= j < |txs| ==> (txs + [x])[j] == txs[j];
    assert (txs + [x])[|txs|] == x;
  }

  /** The entry found for a day, or the empty one, is that day's entry so far. */
  lemma PrefixDay(grouped: map<string, DayData>, txs: seq<Transaction>, key: string)
    requires GroupsPrefix(grouped, txs)
    ensures SelectedDay(grouped, key) == DayOf(txs, key)
  {
    if key !in grouped {
      DayOfAbsent(txs, key);
    }
  }

  /** Adding a record to its day's entry extends such a map by that record. */
  lemma GroupSnoc(grouped: map<string, DayData>, txs: seq<Transaction>, x: Transaction)
    requires GroupsPrefix(grouped, txs)
    ensures GroupsPrefix(grouped[DayKey(x.date) := AddRecord(SelectedDay(grouped, DayKey(x.date)), x)], txs + [x])
  {
    var key := DayKey(x.date);
    PrefixDay(grouped, txs, key);
    DayKeysSnoc(txs, x);
    var g := grouped[key := AddRecord(SelectedDay(grouped, key), x)];
    forall k | k in g ensures g[k] == DayOf(txs + [x], k) {
      DayOfSnoc(txs, x, k);
    }
  }

  /** The loop's step: the first `i + 1` records. */
  lemma GroupStep(grouped: map<string, DayData>, txs: seq<Transaction>, i: nat)
    requires i < |txs| && GroupsPrefix(grouped, txs[..i])
    ensures GroupsPrefix(grouped[DayKey(txs[i].date) := AddRecord(SelectedDay(grouped, DayKey(txs[i].date)), txs[i])], txs[..i + 1])
  {
    assert txs[..i + 1] == txs[..i] + [txs[i]];
    GroupSnoc(grouped, txs[..i], txs[i]);
  }

  /** The `forEach` callback: creates the record's day entry if missing, adds its absolute
      amount to the income or the expense total by type, and appends it to the items. */
  method AddToDay(grouped: map<string, DayData>, tx: Transaction) returns (updated: map<string, DayData>)
    ensures updated == grouped[DayKey(tx.date) := AddRecord(SelectedDay(grouped, DayKey(tx.date)), tx)]
  {
    var key := DayKey(tx.date);
    var day := if key in grouped then grouped[key] else EmptyDay;
    if tx.kind == Expense {
      day := day.(expense := day.expense + Abs(tx.amount));
    } else if tx.kind == Income {
      day := day.(income := day.income + Abs(tx.amount));
    }
    day := day.(items := day.items + [tx]);
    updated := grouped[key := day];
  }

  /** `transactionsByDate`: one pass over the list, adding each record to its day. */
  method GroupByDate(txs: seq<Transaction>) returns (grouped: map<string, DayData>)
    ensures grouped == Grouped(txs)
  {
    grouped := map[];
    var i := 0;
    while i < |txs|
      invariant 0 <= i <= |txs|
      invariant GroupsPrefix(grouped, txs[..i])
    {
      GroupStep(grouped, txs, i);
      grouped := AddToDay(grouped, txs[i]);
      i := i + 1;
    }
    GroupsIsGrouped(grouped, txs);
  }

  /** A record is among a day's items exactly when its date falls on that day; the items
      keep list order, and a day's totals are the totals of its own items. */
  lemma DayItemsPartition(txs: seq<Transaction>, k: string)
    ensures forall t :: t in DayOf(txs, k).items <==> t in txs && DayKey(t.date) == k
    ensures IsSubsequence(DayOf(txs, k).items, txs)
    ensures DayOf(txs, k).income == Sum(AbsAmount, Filter(IsIncome, DayOf(txs, k).items))
    ensures DayOf(txs, k).expense == Sum(AbsAmount, Filter(IsExpense, DayOf(txs, k).items))
  {
    FilterMembers(OnDay(k), txs);
    FilterSubsequence(OnDay(k), txs);
    forall t | t in txs && DayKey(t.date) == k ensures t in DayOf(txs, k).items {
      var j :| 0 <= j < |txs| && txs[j] == t;
    }
    FilterFilter(OnDay(k), IsIncome, IncomeOnDay(k), txs);
    FilterFilter(OnDay(k), IsExpense, ExpenseOnDay(k), txs);
  }

  /** A day's totals are non-negative, and its expense total is at most the list's. */
  lemma DayTotalsBounded(txs: seq<Transaction>, k: string)
    ensures DayOf(txs, k).income >= 0.0 && DayOf(txs, k).expense >= 0.0
    ensures DayOf(txs, k).expense <= TotalExpense(txs)
  {
    var inc := Filter(IncomeOnDay(k), txs);
    SumNonNegative(AbsAmount, inc);
    FilterFilter(IsExpense, OnDay(k), ExpenseOnDay(k), txs);
    var exps := Filter(IsExpense, txs);
    SumFilterLe(AbsAmount, OnDay(k), exps);
    SumNonNegative(AbsAmount, Filter(ExpenseOnDay(k), txs));
  }

  /** The badge on a day's tile: none, a gain, or a loss, with the day's net amount. */
  datatype Badge = NoBadge | Gain(net: real) | Loss(net: real)

  /** `tileContent`: no badge for a day without records or with a zero net; otherwise the
      net, marked positive when it is not negative. */
  function TileBadge(grouped: map<string, DayData>, key: string): Badge
  {
    if key !in grouped then NoBadge
    else
      var net := grouped[key].income - grouped[key].expense;
      if Abs(net) == 0.0 then NoBadge
      else if net >= 0.0 then Gain(net)
      else Loss(net)
  }

  /** A tile has a badge exactly when its day's incomes and expenses differ: a gain carrying
      the positive net when incomes are larger, a loss carrying the negative net otherwise. */
  lemma TileBadgeMeaning(txs: seq<Transaction>, key: string)
    ensures var d := DayOf(txs, key);
      && (TileBadge(Grouped(txs), key) == NoBadge <==> d.income == d.expense)
      && (TileBadge(Grouped(txs), key).Gain? <==> d.income > d.expense)
      && (TileBadge(Grouped(txs), key).Loss? <==> d.income < d.expense)
      && (TileBadge(Grouped(txs), key) != NoBadge ==> TileBadge(Grouped(txs), key).net == d.income - d.expense)
  {
    if key !in DayKeys(txs) {
      DayOfAbsent(txs, key);
    }
  }

  /** The records whose day is one of `ks`. */
  function InDays(ks: seq<string>): Transaction -> bool
  {
    (t: Transaction) => DayKey(t.date) in ks
  }

  predicate Distinct(ks: seq<string>)
  {
    forall i, j :: 0 <= i < j < |ks| ==> ks[i] != ks[j]
  }

  /** The number of items listed over the days `ks`. */
  function ItemTotal(txs: seq<Transaction>, ks: seq<string>): nat
  {
    if |ks| == 0 then 0 else |DayOf(txs, ks[0]).items| + ItemTotal(txs, ks[1..])
  }

  lemma {:induction false} ItemTotalCounts(txs: seq<Transaction>, ks: seq<string>)
    requires Distinct(ks)
    ensures ItemTotal(txs, ks) == Count(InDays(ks), txs)
  {
    if |ks| > 0 {
      ItemTotalCounts(txs, ks[1..]);
      FilterLength(OnDay(ks[0]), txs);
      assert forall t :: InDays(ks)(t) == (OnDay(ks[0])(t) || InDays(ks[1..])(t)) by {
        assert ks == [ks[0]] + ks[1..];
      }
      assert forall t :: !(OnDay(ks[0])(t) && InDays(ks[1..])(t)) by {
        assert forall j :: 0 <= j < |ks| - 1 ==> ks[1..][j] == ks[j + 1];
      }
      CountUnion(OnDay(ks[0]), InDays(ks[1..]), InDays(ks), txs);
    } else {
      FilterNone(InDays(ks), txs);
      FilterLength(InDays(ks), txs);
    }
  }

  /** Every record is listed under exactly one day: over distinct days that cover the list,
      the item counts add up to the number of records. */
  lemma ItemCountsSumToLength(txs: seq<Transaction>, ks: seq<string>)
    requires Distinct(ks)
    requires DayKeys(txs) <= set k | k in ks
    ensures ItemTotal(txs, ks) == |txs|
  {
    ItemTotalCounts(txs, ks);
    assert forall j :: 0 <= j < |txs| ==> DayKey(txs[j].date) in DayKeys(txs);
    CountAll(InDays(ks), txs);
  }
}

