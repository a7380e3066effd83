/** The subscriptions page: the list kept in `localStorage` under `"subscriptions"`, the
    monthly total, saving a new or edited subscription, deleting one, and the days left
    until each one is billed. The new id (`Date.now()`) and the day of the month
    (`new Date().getDate()`) are parameters. */
module Subscriptions {
  import opened Seqs
  import opened Ledger
  import opened Store
  import opened Forms

  /** The ids of `CATEGORIES`, in order; the last, `other`, is the fallback. */
  const CategoryIds := ["entertainment", "music", "utilities", "software", "gaming",
                        "shopping", "education", "other"]

  /** `INITIAL_SUBSCRIPTIONS`. */
  const InitialSubscriptions := [
    Subscription(1, "Netflix", Price(15.99), 5, "entertainment"),
    Subscription(2, "Spotify", Price(9.99), 15, "music"),
    Subscription(3, "Adobe Creative Cloud", Price(29.99), 1, "software")
  ]

  /** The test every stored element must pass: an object with a defined `cost` and a
      truthy `billingDay`. */
  predicate Accepted(r: RawSub)
  {
    r.SubObj? && r.sub.cost != NoCost && r.sub.billingDay != 0
  }

  /** Every subscription of the list would pass that test once stored. */
  predicate AllAccepted(subs: seq<Subscription>)
  {
    forall i :: 0 <= i < |subs| ==> Accepted(SubObj(subs[i]))
  }

  /** The list as `JSON.stringify` writes it and `JSON.parse` reads it back. */
  function Items(subs: seq<Subscription>): seq<RawSub>
  {
    Map((s: Subscription) => SubObj(s), subs)
  }

  /** The subscriptions held by a parsed array whose elements are all objects. */
  function Unwrapped(items: seq<RawSub>): (r: seq<Subscription>)
    requires forall i :: 0 <= i < |items| ==> items[i].SubObj?
    ensures Items(r) == items
  {
    if |items| == 0 then []
    else [items[0].sub] + Unwrapped(items[1..])
  }

  /** The page's initial list: the stored array when every element passes the test,
      otherwise (nothing stored, text that does not parse, a value that is not an array,
      an element that fails) the initial subscriptions. */
  function LoadSubscriptions(entries: map<string, Stored>): (r: seq<Subscription>)
    ensures AllAccepted(r)
    ensures "subscriptions" in entries && entries["subscriptions"].SubList?
            && (forall i :: 0 <= i < |entries["subscriptions"].items| ==> Accepted(entries["subscriptions"].items[i]))
            ==> Items(r) == entries["subscriptions"].items
    ensures !("subscriptions" in entries && entries["subscriptions"].SubList?
              && (forall i :: 0 <= i < |entries["subscriptions"].items| ==> Accepted(entries["subscriptions"].items[i])))
            ==> r == InitialSubscriptions
  {
    if "subscriptions" in entries && entries["subscriptions"].SubList?
       && forall i :: 0 <= i < |entries["subscriptions"].items| ==> Accepted(entries["subscriptions"].items[i])
    then
      var r := Unwrapped(entries["subscriptions"].items);
      assert forall i :: 0 <= i < |r| ==> Items(r)[i] == SubObj(r[i]);
      r
    else InitialSubscriptions
  }

  /** A list that passes the test reads back as itself after it is written. */
  lemma LoadAfterWrite(entries: map<string, Stored>, subs: seq<Subscription>)
    requires AllAccepted(subs)
    ensures LoadSubscriptions(entries["subscriptions" := SubList(Items(subs))]) == subs
  {
    var written := entries["subscriptions" := SubList(Items(subs))];
    assert forall i :: 0 <= i < |Items(subs)| ==> Accepted(Items(subs)[i]);
    MapInjective(subs, LoadSubscriptions(written));
  }

  /** A list with a subscription that fails the test is written, and the next load gives
      the initial subscriptions instead. */
  lemma RejectedAfterWrite(entries: map<string, Stored>, subs: seq<Subscription>)
    requires !AllAccepted(subs)
    ensures LoadSubscriptions(entries["subscriptions" := SubList(Items(subs))]) == InitialSubscriptions
  {
    var i :| 0 <= i < |subs| && !Accepted(SubObj(subs[i]));
    assert Items(subs)[i] == SubObj(subs[i]);
  }

  /** Two lists with the same stored form are the same list. */
  lemma MapInjective(a: seq<Subscription>, b: seq<Subscription>)
    requires Items(a) == Items(b)
    ensures a == b
  {
    assert |a| == |Items(a)|;
    forall i | 0 <= i < |a| ensures a[i] == b[i] {
      assert Items(a)[i] == SubObj(a[i]) && Items(b)[i] == SubObj(b[i]);
    }
  }

  /** `Number(sub.cost) || 0`: a number, with everything that is not a number read as 0. */
  function MonthlyCost(s: Subscription): real
  {
    match s.cost
    case Price(v) => v
    case _ => 0.0
  }

  /** `totalMonthly`. */
  function TotalMonthly(subs: seq<Subscription>): real
  {
    Sum(MonthlyCost, subs)
  }

  /** The initial subscriptions cost 55.97 a month. */
  lemma InitialTotal()
    ensures TotalMonthly(InitialSubscriptions) == 55.97
  {
    assert InitialSubscriptions[1..][1..][1..] == [];
  }

  /** `newSub`: the form's name, cost, billing day and category. */
  datatype SubForm = SubForm(name: string, cost: NumField, billingDay: NumField, category: string)

  /** The form as the modal opens for a new subscription, and as it is reset. */
  const BlankForm := SubForm("", Empty, Empty, "other")

  /** The browser submits the form only when every `required` field is filled and the
      billing day is a whole number from 1 to 31 (`min`, `max` and the default step). */
  predicate BrowserSubmits(f: SubForm)
  {
    f.name != "" && !f.cost.Empty? && !f.billingDay.Empty?
    && Parsed(f.billingDay) == Parsed(f.billingDay).Floor as real
    && 1.0 <= Parsed(f.billingDay) <= 31.0
  }

  /** `handleSaveSubscription` goes on past its first check: the browser submitted the
      form, and the name, cost and billing day are all truthy. */
  predicate Saves(f: SubForm)
  {
    BrowserSubmits(f) && f.name != "" && Truthy(f.cost) && Truthy(f.billingDay)
  }

  /** `parseInt(newSub.billingDay)` as it is kept: `NaN`, which `JSON.stringify` writes as
      `null`, is held as 0, since both fail the load test and both count as day 1. */
  function SavedDay(f: SubForm): int
  {
    match ParsedInt(f.billingDay)
    case Some(n) => n
    case None => 0
  }

  /** The edited fields: name, `parseFloat` of the cost, `parseInt` of the billing day and
      the category as chosen. */
  function Edited(s: Subscription, f: SubForm): Subscription
  {
    s.(name := f.name, cost := Price(Parsed(f.cost)), billingDay := SavedDay(f), category := f.category)
  }

  /** The new subscription, its category `'other'` when none is chosen. */
  function NewSubscription(f: SubForm, freshId: int): Subscription
  {
    Subscription(freshId, f.name, Price(Parsed(f.cost)), SavedDay(f),
                 if f.category == "" then "other" else f.category)
  }

  /** `handleSaveSubscription` on the list: an edit when `editingId` is truthy, an append
      otherwise. */
  function SavedSubscriptions(subs: seq<Subscription>, f: SubForm, editing: Option<int>, freshId: int): seq<Subscription>
  {
    if !Saves(f) then subs
    else if TruthyId(editing) then
      Replace((s: Subscription) => s.id == editing.value, (s: Subscription) => Edited(s, f), subs)
    else subs + [NewSubscription(f, freshId)]
  }

  /** A billing day typed without an exponent is saved as the whole number the browser
      checked, from 1 to 31. */
  lemma SavedDayInRange(f: SubForm)
    requires Saves(f) && Plain(f.billingDay)
    ensures SavedDay(f) as real == Parsed(f.billingDay)
    ensures 1 <= SavedDay(f) <= 31
  {
    PlainParseInt(f.billingDay);
  }

  /** `parseInt` reads the typed text, not the number the browser checked: `1e1` passes
      as 10 and is saved as 1, `100e-1` passes as 10 and is saved as 100, and `.5e1`
      passes as 5 and is saved as `NaN`. */
  lemma ExponentDays(name: string, cost: NumField, category: string)
    requires name != "" && Truthy(cost)
    ensures var f := SubForm(name, cost, Typed(NumText(false, [1], [], Some(1))), category);
            Saves(f) && Parsed(f.billingDay) == 10.0 && SavedDay(f) == 1
    ensures var f := SubForm(name, cost, Typed(NumText(false, [1, 0, 0], [], Some(-1))), category);
            Saves(f) && Parsed(f.billingDay) == 10.0 && SavedDay(f) == 100
    ensures var f := SubForm(name, cost, Typed(NumText(false, [], [5], Some(1))), category);
            Saves(f) && Parsed(f.billingDay) == 5.0 && SavedDay(f) == 0
  {
    ExponentTexts();
  }

  /** A subscription added with a billing day typed as `.5e1` is stored with `null` for
      its day; the next load rejects the stored list and the page starts again from the
      initial subscriptions, whatever was saved before. */
  lemma NaNDayLosesList(entries: map<string, Stored>, subs: seq<Subscription>, name: string,
                        cost: NumField, category: string, freshId: int)
    requires name != "" && Truthy(cost)
    ensures var f := SubForm(name, cost, Typed(NumText(false, [], [5], Some(1))), category);
            var saved := SavedSubscriptions(subs, f, None, freshId);
            && |saved| == |subs| + 1
            && LoadSubscriptions(entries["subscriptions" := SubList(Items(saved))]) == InitialSubscriptions
  {
    ExponentDays(name, cost, category);
    var f := SubForm(name, cost, Typed(NumText(false, [], [5], Some(1))), category);
    var saved := SavedSubscriptions(subs, f, None, freshId);
    assert saved[|subs|].billingDay == 0;
    assert !Accepted(Items(saved)[|subs|]);
  }

  /** Saving a form the page does not save changes nothing. Adding appends exactly the new
      subscription, with the fresh id, a category and the saved billing day (from 1 to 31
      when typed without an exponent), and the monthly total grows by its cost. Editing
      keeps the length and every id, changes the subscriptions with the edited id to the
      form's values and leaves the others. Either way, a list that passes the load test
      still passes it unless the saved day is `NaN`. */
  lemma SaveEffect(subs: seq<Subscription>, f: SubForm, editing: Option<int>, freshId: int)
    ensures !Saves(f) ==> SavedSubscriptions(subs, f, editing, freshId) == subs
    ensures Saves(f) && !TruthyId(editing) ==>
      var n := NewSubscription(f, freshId);
      && SavedSubscriptions(subs, f, editing, freshId) == subs + [n]
      && n.id == freshId && n.name == f.name && n.cost == Price(Parsed(f.cost))
      && n.category != "" && n.billingDay == SavedDay(f)
      && (Plain(f.billingDay) ==> 1 <= n.billingDay <= 31 && n.billingDay as real == Parsed(f.billingDay))
      && TotalMonthly(SavedSubscriptions(subs, f, editing, freshId)) == TotalMonthly(subs) + Parsed(f.cost)
    ensures TruthyId(editing) ==>
      var r := SavedSubscriptions(subs, f, editing, freshId);
      && |r| == |subs|
      && forall i :: 0 <= i < |subs| ==>
           r[i].id == subs[i].id
           && (subs[i].id != editing.value || !Saves(f) ==> r[i] == subs[i])
           && (subs[i].id == editing.value && Saves(f) ==>
                 r[i] == Subscription(subs[i].id, f.name, Price(Parsed(f.cost)),
                                      SavedDay(f), f.category))
    ensures AllAccepted(subs) && (Saves(f) ==> SavedDay(f) != 0)
            ==> AllAccepted(SavedSubscriptions(subs, f, editing, freshId))
    ensures AllAccepted(subs) && Plain(f.billingDay) ==> AllAccepted(SavedSubscriptions(subs, f, editing, freshId))
  {
    if Saves(f) && Plain(f.billingDay) {
      SavedDayInRange(f);
    }
    if Saves(f) {
      if !TruthyId(editing) {
        var n := NewSubscription(f, freshId);
        SumAppend(MonthlyCost, subs, [n]);
        assert Sum(MonthlyCost, [n]) == MonthlyCost(n);
      }
    }
  }

  /** The form `startEdit` fills: the stored values, the category `'other'` when none. A
      stored cost that is not a number loads as an empty field. */
  function EditFormOf(s: Subscription): SubForm
  {
    SubForm(s.name, if s.cost.Price? then Loaded(s.cost.value) else Empty,
            Loaded(s.billingDay as real), if s.category == "" then "other" else s.category)
  }

  /** No two subscriptions share an id. */
  predicate UniqueSubIds(subs: seq<Subscription>)
  {
    forall i, j :: 0 <= i < j < |subs| ==> subs[i].id != subs[j].id
  }

  /** Opening a subscription for editing and saving the form untouched gives the list back,
      for a subscription with a non-zero id, a numeric cost, a billing day from 1 to 31 and
      a category. */
  lemma EditRoundTrip(subs: seq<Subscription>, k: nat, freshId: int)
    requires UniqueSubIds(subs) && k < |subs|
    requires subs[k].id != 0 && subs[k].cost.Price? && 1 <= subs[k].billingDay <= 31 && subs[k].category != ""
    ensures SavedSubscriptions(subs, EditFormOf(subs[k]), Some(subs[k].id), freshId) == subs
  {
    var f := EditFormOf(subs[k]);
    if Saves(f) {
      var r := SavedSubscriptions(subs, f, Some(subs[k].id), freshId);
      forall i | 0 <= i < |subs| ensures r[i] == subs[i] {
        if i < k {
          assert subs[i].id != subs[k].id;
        } else if i > k {
          assert subs[k].id != subs[i].id;
        } else {
          assert Truncated(subs[k].billingDay as real) == subs[k].billingDay;
        }
      }
    }
  }

  /** `subscriptions.filter(sub => sub.id !== id)`. */
  function WithoutSubscription(subs: seq<Subscription>, id: int): seq<Subscription>
  {
    Filter((s: Subscription) => s.id != id, subs)
  }

  /** Deleting keeps exactly the subscriptions with another id, in order; the monthly total
      drops by what those with the id cost; a list that passes the load test still does. */
  lemma DeleteEffect(subs: seq<Subscription>, id: int)
    ensures forall s :: s in WithoutSubscription(subs, id) <==> s in subs && s.id != id
    ensures IsSubsequence(WithoutSubscription(subs, id), subs)
    ensures TotalMonthly(WithoutSubscription(subs, id))
            == TotalMonthly(subs) - TotalMonthly(Filter((s: Subscription) => s.id == id, subs))
    ensures AllAccepted(subs) ==> AllAccepted(WithoutSubscription(subs, id))
  {
    var keep := (s: Subscription) => s.id != id;
    FilterMembers(keep, subs);
    FilterSubsequence(keep, subs);
    forall s | s in subs && s.id != id ensures s in WithoutSubscription(subs, id) {
      var i :| 0 <= i < |subs| && subs[i] == s;
    }
    SumSplit(MonthlyCost, keep, (s: Subscription) => s.id == id, subs);
  }

  /** `parseInt(sub.billingDay) || 1`, then the days to that day: later this month, or
      counted over a 30-day month. */
  function DaysLeft(billingDay: int, today: int): int
  {
    var day := if billingDay == 0 then 1 else billingDay;
    if day >= today then day - today else 30 - today + day
  }

  /** For a day of the month and a billing day from 1 to 31, the days left are between 0
      and 30 and land on the billing day, this month or 30 days on; they are 0 on the
      billing day itself and, through the 30-day count, on the 31st for the 1st. */
  lemma DaysLeftMeaning(billingDay: int, today: int)
    requires 1 <= today <= 31 && 1 <= billingDay <= 31
    ensures 0 <= DaysLeft(billingDay, today) <= 30
    ensures billingDay >= today ==> today + DaysLeft(billingDay, today) == billingDay
    ensures billingDay < today ==> today + DaysLeft(billingDay, today) == billingDay + 30
    ensures DaysLeft(billingDay, today) == 0 <==> billingDay == today || (today == 31 && billingDay == 1)
  {
  }

  /** The category a card shows: the stored one when it is one of `CATEGORIES`, else
      `other`. */
  function CategoryShown(category: string): (r: string)
    ensures r in CategoryIds
    ensures category in CategoryIds ==> r == category
    ensures category !in CategoryIds ==> r == "other"
  {
    if category in CategoryIds then category else CategoryIds[7]
  }

  /** The page's list and the storage it writes. */
  class SubscriptionsPage {
    var subscriptions: seq<Subscription>
    const storage: Storage

    constructor (storage: Storage)
      ensures this.storage == storage && subscriptions == LoadSubscriptions(storage.entries)
      ensures AllAccepted(subscriptions)
    {
      this.storage := storage;
      subscriptions := LoadSubscriptions(storage.entries);
    }

    /** `handleSaveSubscription`: a save that goes through is written to storage. The next
        load gives back what the page shows when every subscription passes the load test,
        and the initial subscriptions otherwise (a day saved as `NaN`). */
    method SaveSubscription(f: SubForm, editing: Option<int>, freshId: int)
      modifies this, storage
      ensures subscriptions == SavedSubscriptions(old(subscriptions), f, editing, freshId)
      ensures !Saves(f) ==> storage.entries == old(storage.entries)
      ensures Saves(f) ==> storage.entries == old(storage.entries)["subscriptions" := SubList(Items(subscriptions))]
      ensures AllAccepted(old(subscriptions)) && Plain(f.billingDay) ==> AllAccepted(subscriptions)
      ensures Saves(f) ==> LoadSubscriptions(storage.entries)
                           == if AllAccepted(subscriptions) then subscriptions else InitialSubscriptions
    {
      SaveEffect(subscriptions, f, editing, freshId);
      if !Saves(f) {
        return;
      }
      var updated := SavedSubscriptions(subscriptions, f, editing, freshId);
      subscriptions := updated;
      if AllAccepted(updated) {
        LoadAfterWrite(storage.entries, updated);
      } else {
        RejectedAfterWrite(storage.entries, updated);
      }
      storage.SetItem("subscriptions", SubList(Items(updated)));
    }

    /** `handleDelete` (after the confirmation). */
    method DeleteSubscription(id: int)
      modifies this, storage
      ensures subscriptions == WithoutSubscription(old(subscriptions), id)
      ensures storage.entries == old(storage.entries)["subscriptions" := SubList(Items(subscriptions))]
      ensures AllAccepted(old(subscriptions)) ==> LoadSubscriptions(storage.entries) == subscriptions
    {
      DeleteEffect(subscriptions, id);
      var updated := WithoutSubscription(subscriptions, id);
      subscriptions := updated;
      if AllAccepted(updated) {
        LoadAfterWrite(storage.entries, updated);
      }
      storage.SetItem("subscriptions", SubList(Items(updated)));
    }
  }
}
