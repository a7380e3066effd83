/** The transaction detail page: find a record by the route's id, edit its amount, date,
    category and description, or delete it. */
module TransactionDetail {
  import opened Seqs
  import opened Ledger
  import opened Store

  /** `transactions.find(t => t.id === Number(id))`; the route id is `None` when
      `Number(id)` is not an integer (NaN matches no record). */
  function Find(txs: seq<Transaction>, routeId: Option<int>): (r: Option<Transaction>)
    ensures r.Some? <==> routeId.Some? && exists i :: 0 <= i < |txs| && txs[i].id == routeId.value
    ensures r.Some? ==> r.value.id == routeId.value
                        && exists i :: 0 <= i < |txs| && txs[i] == r.value
                                       && forall j :: 0 <= j < i ==> txs[j].id != routeId.value
  {
    if routeId.None? || |txs| == 0 then None
    else if txs[0].id == routeId.value then Some(txs[0])
    else
      var r := Find(txs[1..], routeId);
      assert r.Some? ==> exists i :: 0 <= i < |txs| && txs[i] == r.value
                                     && forall j :: 0 <= j < i ==> txs[j].id != routeId.value by {
        if r.Some? {
          var i :| 0 <= i < |txs[1..]| && txs[1..][i] == r.value
                   && forall j :: 0 <= j < i ==> txs[1..][j].id != routeId.value;
          assert txs[i + 1] == r.value;
          forall j | 0 <= j < i + 1 ensures txs[j].id != routeId.value {
            if j > 0 { assert txs[j] == txs[1..][j - 1]; }
          }
        }
      }
      assert (exists i :: 0 <= i < |txs| && txs[i].id == routeId.value)
             ==> exists i :: 0 <= i < |txs[1..]| && txs[1..][i].id == routeId.value by {
        if exists i :: 0 <= i < |txs| && txs[i].id == routeId.value {
          var i :| 0 <= i < |txs| && txs[i].id == routeId.value;
          assert txs[1..][i - 1] == txs[i];
        }
      }
      r
  }

  /** The edit form: `amount` is a number the user types, the rest are strings. */
  datatype EditForm = EditForm(amount: real, date: string, category: string, description: string)

  /** The form's initial values: the record's absolute amount and its other fields. */
  function InitialForm(t: Transaction): (f: EditForm)
    ensures f.amount >= 0.0 && (f.amount == t.amount || f.amount == -t.amount)
    ensures f.date == t.date && f.category == t.category && f.description == t.description
  {
    EditForm(Abs(t.amount), t.date, t.category, t.description)
  }

  /** `updatedTx` as written: the typed amount for an income, its negation otherwise. */
  function UpdatedAsWritten(t: Transaction, f: EditForm): Transaction
  {
    t.(amount := if IsIncome(t) then f.amount else -f.amount,
       date := f.date, category := f.category, description := f.description)
  }

  /** The amount input has no lower bound, so a negative typed amount on an expense is
      stored positive, against the sign convention. */
  lemma UpdatedAsWrittenBreaksSign()
    ensures var t := Transaction(1, "Food", -5.0, Expense, "2024-01-01", "Food", "");
            SignConvention(t) && !SignConvention(UpdatedAsWritten(t, EditForm(-5.0, t.date, t.category, t.description)))
  {
  }

  /** `updatedTx` as written keeps id, type and title and takes the form's fields and the
      size of the typed amount; for an income or an expense it keeps the sign convention
      exactly when the typed amount is not negative. */
  lemma UpdatedAsWrittenEffect(t: Transaction, f: EditForm)
    ensures var u := UpdatedAsWritten(t, f);
            && u.id == t.id && u.kind == t.kind && u.title == t.title
            && u.date == f.date && u.category == f.category && u.description == f.description
            && Abs(u.amount) == Abs(f.amount)
            && (IsIncomeOrExpense(t) ==> (SignConvention(u) <==> f.amount >= 0.0))
  {
  }

  /** The update with the sign taken from the record's type and the size from the input,
      as the add page does. */
  function Updated(t: Transaction, f: EditForm): (u: Transaction)
    ensures u.id == t.id && u.kind == t.kind && u.title == t.title
    ensures u.date == f.date && u.category == f.category && u.description == f.description
    ensures Abs(u.amount) == Abs(f.amount)
    ensures SignConvention(u)
  {
    t.(amount := if IsIncome(t) then Abs(f.amount) else -Abs(f.amount),
       date := f.date, category := f.category, description := f.description)
  }

  /** For the amounts the form starts with and any other non-negative input, the code as
      written and the corrected update agree. */
  lemma UpdatedAgreesOnNonNegative(t: Transaction, f: EditForm)
    requires f.amount >= 0.0
    ensures UpdatedAsWritten(t, f) == Updated(t, f)
  {
  }

  /** Saving the untouched form gives the record back, for a record that follows the sign
      convention (a record of another type must not be positive). */
  lemma UntouchedFormRoundTrip(t: Transaction)
    requires SignConvention(t) && (IsIncome(t) || t.amount <= 0.0)
    ensures Updated(t, InitialForm(t)) == t
  {
  }

  /** `transactions.map(t => t.id === id ? updatedTx : t)`: the records with the id become
      the updated one, the others are kept, positions and length unchanged. */
  function ReplaceById(txs: seq<Transaction>, id: int, u: Transaction): (r: seq<Transaction>)
    ensures |r| == |txs|
    ensures forall i :: 0 <= i < |txs| ==> r[i] == if txs[i].id == id then u else txs[i]
  {
    Replace((t: Transaction) => t.id == id, (t: Transaction) => u, txs)
  }

  /** With distinct ids, replacing by the id of the record at `k` changes that position only. */
  lemma ReplaceByIdChangesOne(txs: seq<Transaction>, k: nat, u: Transaction)
    requires UniqueIds(txs) && k < |txs|
    ensures ReplaceById(txs, txs[k].id, u) == txs[k := u]
  {
    var r := ReplaceById(txs, txs[k].id, u);
    forall i | 0 <= i < |txs| ensures r[i] == txs[k := u][i] {
      if i != k {
        if i < k { assert txs[i].id != txs[k].id; } else { assert txs[k].id != txs[i].id; }
      }
    }
  }

  /** Replacing by the id of a record that keeps its id leaves the ids as they were. */
  lemma ReplaceByIdKeepsIds(txs: seq<Transaction>, id: int, u: Transaction)
    requires u.id == id && IdsSet(txs)
    ensures IdsSet(ReplaceById(txs, id, u))
    ensures forall i :: 0 <= i < |txs| ==> ReplaceById(txs, id, u)[i].id == txs[i].id
  {
    var r := ReplaceById(txs, id, u);
    forall i | 0 <= i < |r| ensures r[i].id == txs[i].id {
    }
  }

  /** `handleUpdate`: the found record is replaced, with the corrected sign rule, through
      the transaction setter. Without a record the page shows no form and nothing changes. */
  method Update(store: Store, routeId: Option<int>, form: EditForm)
    modifies store, store.storage
    ensures Find(old(store.transactions), routeId).None? ==>
              store.transactions == old(store.transactions) && store.storage.entries == old(store.storage.entries)
    ensures Find(old(store.transactions), routeId).Some? ==>
              store.transactions == Sanitize(Array(AsRaw(ReplaceById(old(store.transactions), routeId.value,
                                                  Updated(Find(old(store.transactions), routeId).value, form)))))
              && store.storage.entries == old(store.storage.entries)["transactions" := TxList(Array(AsRaw(store.transactions)))]
    ensures Find(old(store.transactions), routeId).Some? && IdsSet(old(store.transactions)) ==>
              store.transactions == ReplaceById(old(store.transactions), routeId.value,
                                                Updated(Find(old(store.transactions), routeId).value, form))
    ensures store.categories == old(store.categories) && store.budgetLimits == old(store.budgetLimits)
    ensures store.currency == old(store.currency) && store.language == old(store.language)
  {
    var found := Find(store.transactions, routeId);
    if found.Some? {
      var updated := Updated(found.value, form);
      var list := ReplaceById(store.transactions, routeId.value, updated);
      if IdsSet(store.transactions) {
        ReplaceByIdKeepsIds(store.transactions, routeId.value, updated);
        SanitizeClean(list);
      }
      store.SetTransactions(Array(AsRaw(list)));
    }
  }

  /** `handleDelete`: every record with the route's id goes, through the setter; the rest
      keep their order. */
  method Delete(store: Store, id: int)
    modifies store, store.storage
    ensures store.transactions == Sanitize(Array(AsRaw(WithoutId(old(store.transactions), id))))
    ensures IdsSet(old(store.transactions)) ==> store.transactions == WithoutId(old(store.transactions), id)
    ensures store.storage.entries == old(store.storage.entries)["transactions" := TxList(Array(AsRaw(store.transactions)))]
    ensures store.categories == old(store.categories) && store.budgetLimits == old(store.budgetLimits)
    ensures store.currency == old(store.currency) && store.language == old(store.language)
  {
    var list := WithoutId(store.transactions, id);
    if IdsSet(store.transactions) {
      FilterMembers((t: Transaction) => t.id != id, store.transactions);
      SanitizeClean(list);
    }
    store.SetTransactions(Array(AsRaw(list)));
  }
}
