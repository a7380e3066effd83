/** The dashboard: the three totals, up to three budget rows, the five newest records,
    and delete from the recent list. */
module Dashboard {
  import opened Seqs
  import opened Dates
  import opened Ledger
  import opened Sorting
  import opened Store

  /** `budgetLimits[c.name] > 0`: the category has a positive limit (a missing one reads as
      `undefined`, which is not greater than 0). */
  function HasLimit(limits: map<string, real>): Category -> bool
  {
    (c: Category) => c.name in limits && limits[c.name] > 0.0
  }

  /** One budget row: the category, its limit, what has been spent, the bar's percentage
      and whether the limit is exceeded. */
  datatype BudgetRow = BudgetRow(category: Category, limit: real, spent: real, percentage: real, over: bool)

  /** The row for a category with a positive limit. */
  function Row(txs: seq<Transaction>, limits: map<string, real>, c: Category): (r: BudgetRow)
    requires HasLimit(limits)(c)
    ensures r.category == c && r.limit == limits[c.name] && r.spent == Spent(txs, c.name)
    ensures 0.0 <= r.percentage <= 100.0
    ensures r.percentage == 100.0 <==> r.spent >= r.limit
    ensures r.spent < r.limit ==> r.percentage == r.spent / r.limit * 100.0
    ensures r.over <==> r.spent > r.limit
  {
    var limit := limits[c.name];
    var spent := Spent(txs, c.name);
    var ratio := spent / limit * 100.0;
    RatioReachesHundred(spent, limit);
    BudgetRow(c, limit, spent, if ratio < 100.0 then ratio else 100.0, spent > limit)
  }

  function Rows(txs: seq<Transaction>, limits: map<string, real>, cats: seq<Category>): seq<BudgetRow>
    requires forall i :: 0 <= i < |cats| ==> HasLimit(limits)(cats[i])
  {
    if |cats| == 0 then [] else [Row(txs, limits, cats[0])] + Rows(txs, limits, cats[1..])
  }

  /** `categories.filter(c => budgetLimits[c.name] > 0).slice(0, 3).map(...)`. */
  function BudgetRows(txs: seq<Transaction>, limits: map<string, real>, cats: seq<Category>): (r: seq<BudgetRow>)
  {
    var shown := Filter(HasLimit(limits), cats);
    FilterMembers(HasLimit(limits), cats);
    var first := shown[..if |shown| < 3 then |shown| else 3];
    Rows(txs, limits, first)
  }

  lemma {:induction false} RowsAt(txs: seq<Transaction>, limits: map<string, real>, cats: seq<Category>, i: nat)
    requires forall i :: 0 <= i < |cats| ==> HasLimit(limits)(cats[i])
    requires i < |cats|
    ensures |Rows(txs, limits, cats)| == |cats|
    ensures Rows(txs, limits, cats)[i] == Row(txs, limits, cats[i])
  {
    if i > 0 {
      RowsAt(txs, limits, cats[1..], i - 1);
    } else if |cats| > 1 {
      RowsAt(txs, limits, cats[1..], 0);
    }
  }

  /** At most three rows; they are the first categories with a positive limit, in category
      order; and all of them exist when there are three or fewer such categories. */
  lemma BudgetRowsSelection(txs: seq<Transaction>, limits: map<string, real>, cats: seq<Category>)
    ensures |BudgetRows(txs, limits, cats)| <= 3
    ensures |BudgetRows(txs, limits, cats)| <= |Filter(HasLimit(limits), cats)|
    ensures |BudgetRows(txs, limits, cats)| == |Filter(HasLimit(limits), cats)| || |BudgetRows(txs, limits, cats)| == 3
    ensures forall i :: 0 <= i < |BudgetRows(txs, limits, cats)| ==>
              BudgetRows(txs, limits, cats)[i].category == Filter(HasLimit(limits), cats)[i]
              && BudgetRows(txs, limits, cats)[i].limit > 0.0
    ensures IsSubsequence(Filter(HasLimit(limits), cats), cats)
  {
    var shown := Filter(HasLimit(limits), cats);
    FilterMembers(HasLimit(limits), cats);
    FilterSubsequence(HasLimit(limits), cats);
    var first := shown[..if |shown| < 3 then |shown| else 3];
    if |first| > 0 {
      RowsAt(txs, limits, first, 0);
    }
    forall i | 0 <= i < |first|
      ensures Rows(txs, limits, first)[i].category == shown[i] && Rows(txs, limits, first)[i].limit > 0.0
    {
      RowsAt(txs, limits, first, i);
    }
  }

  /** `transactions.sort(newest first).slice(0, 5)`. */
  function Recent(txs: seq<Transaction>): (r: seq<Transaction>)
    ensures |r| == if |txs| < 5 then |txs| else 5
  {
    var sorted := SortByDateDesc(txs);
    sorted[..if |sorted| < 5 then |sorted| else 5]
  }

  /** The recent list is newest first, is drawn from the transactions, and no record left
      out is newer than any record shown. */
  lemma RecentAreNewest(txs: seq<Transaction>)
    ensures SortedDesc(Recent(txs))
    ensures multiset(Recent(txs)) <= multiset(txs)
    ensures forall i, j :: 0 <= i < |Recent(txs)| <= j < |txs| ==>
              LexLe(SortByDateDesc(txs)[j].date, Recent(txs)[i].date)
  {
    var sorted := SortByDateDesc(txs);
    var r := Recent(txs);
    SortIsSorted(txs);
    assert sorted == r + sorted[|r|..];
    forall i, j | 0 <= i < |r| <= j < |txs| ensures LexLe(sorted[j].date, r[i].date) {
      SortedPairwise(sorted, i, j);
    }
  }

  /** `recentTransactions`: the sort runs in place on the shared list, so the store's list
      is left reordered (newest first); storage is not written. */
  method RecentTransactions(store: Store) returns (recent: seq<Transaction>)
    modifies store
    ensures store.transactions == SortByDateDesc(old(store.transactions))
    ensures recent == Recent(old(store.transactions))
    ensures store.categories == old(store.categories) && store.budgetLimits == old(store.budgetLimits)
    ensures store.currency == old(store.currency) && store.language == old(store.language)
  {
    store.transactions := SortByDateDesc(store.transactions);
    recent := store.transactions[..if |store.transactions| < 5 then |store.transactions| else 5];
  }

  /** The delete button on a recent row: every record with that id goes, through the setter. */
  method DeleteRecent(store: Store, id: int)
    modifies store, store.storage
    ensures store.transactions == Sanitize(Array(AsRaw(WithoutId(old(store.transactions), id))))
    ensures IdsSet(old(store.transactions)) ==> store.transactions == WithoutId(old(store.transactions), id)
    ensures store.storage.entries == old(store.storage.entries)["transactions" := TxList(Array(AsRaw(store.transactions)))]
    ensures store.categories == old(store.categories) && store.budgetLimits == old(store.budgetLimits)
    ensures store.currency == old(store.currency) && store.language == old(store.language)
  {
    var updated := WithoutId(store.transactions, id);
    if IdsSet(store.transactions) {
      FilterMembers((t: Transaction) => t.id != id, store.transactions);
      SanitizeClean(updated);
    }
    store.SetTransactions(Array(AsRaw(updated)));
  }
}
