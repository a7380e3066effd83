/** The budget page: one line per expense category with its limit, what has been spent,
    the bar's percentage and the over-budget flag, and editing one category's limit. */
module Budget {
  import opened Seqs
  import opened Ledger
  import opened Store

  /** `budgetLimits[name] || 0`: a missing limit reads as 0. */
  function LimitOf(limits: map<string, real>, name: string): (r: real)
    ensures name !in limits ==> r == 0.0
    ensures name in limits ==> r == limits[name]
  {
    if name in limits then limits[name] else 0.0
  }

  datatype BudgetLine = BudgetLine(limit: real, spent: real, percentage: real, over: bool)

  /** The bar of a category: a share of the limit capped at 100 when the limit is positive;
      otherwise full as soon as anything is spent. */
  function Percentage(spent: real, limit: real): (p: real)
    requires spent >= 0.0
    ensures 0.0 <= p <= 100.0
    ensures p == 0.0 <==> spent == 0.0
    ensures p == 100.0 <==> (limit > 0.0 && spent >= limit) || (limit <= 0.0 && spent > 0.0)
    ensures limit > 0.0 && spent < limit ==> p == spent / limit * 100.0
  {
    if limit > 0.0 then
      RatioReachesHundred(spent, limit);
      var ratio := spent / limit * 100.0;
      if ratio < 100.0 then ratio else 100.0
    else if spent > 0.0 then 100.0
    else 0.0
  }

  /** The line shown for the category named `name`. */
  function Line(txs: seq<Transaction>, limits: map<string, real>, name: string): (r: BudgetLine)
    ensures r.limit == LimitOf(limits, name) && r.spent == Spent(txs, name)
    ensures r.percentage == Percentage(r.spent, r.limit)
    ensures r.over <==> r.spent > r.limit
  {
    var limit := LimitOf(limits, name);
    var spent := Spent(txs, name);
    BudgetLine(limit, spent, Percentage(spent, limit), spent > limit)
  }

  /** A category without a positive limit is over budget as soon as anything is spent in it,
      and its bar is then full. */
  lemma NoLimitOverAtFirstSpend(txs: seq<Transaction>, limits: map<string, real>, name: string)
    requires LimitOf(limits, name) == 0.0
    ensures Line(txs, limits, name).over <==> Spent(txs, name) > 0.0
    ensures Line(txs, limits, name).over <==> Line(txs, limits, name).percentage == 100.0
  {
  }

  /** `parseFloat(editValue) || 0`: `None` is text that does not parse (NaN). */
  function ParsedOrZero(input: Option<real>): real
  {
    match input
    case None => 0.0
    case Some(v) => v
  }

  /** `{ ...budgetLimits, [name]: parseFloat(editValue) || 0 }`. */
  function WithLimit(limits: map<string, real>, name: string, input: Option<real>): (r: map<string, real>)
  {
    limits[name := ParsedOrZero(input)]
  }

  /** Saving sets the edited category's limit (0 for input that does not parse) and leaves
      every other key as it was. */
  lemma WithLimitChangesOneKey(limits: map<string, real>, name: string, input: Option<real>)
    ensures name in WithLimit(limits, name, input)
    ensures WithLimit(limits, name, input)[name] == (if input.Some? then input.value else 0.0)
    ensures WithLimit(limits, name, input).Keys == limits.Keys + {name}
    ensures forall k :: k in limits && k != name ==> WithLimit(limits, name, input)[k] == limits[k]
    ensures LimitOf(WithLimit(limits, name, input), name) == ParsedOrZero(input)
  {
  }

  /** `handleSave`: the new map goes through the limits setter, which stores it. */
  method SaveLimit(store: Store, name: string, input: Option<real>)
    modifies store, store.storage
    ensures store.budgetLimits == WithLimit(old(store.budgetLimits), name, input)
    ensures store.storage.entries == old(store.storage.entries)["budgetLimits" := LimitMap(store.budgetLimits)]
    ensures store.transactions == old(store.transactions) && store.categories == old(store.categories)
    ensures store.currency == old(store.currency) && store.language == old(store.language)
  {
    var newLimits := WithLimit(store.budgetLimits, name, input);
    store.SetBudgetLimits(newLimits);
    store.storage.SetItem("budgetLimits", LimitMap(newLimits));
  }
}
