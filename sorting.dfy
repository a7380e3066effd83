/** The date-descending sort both the dashboard and the transaction list apply:
    `sort((a, b) => new Date(b.date) - new Date(a.date))`. JavaScript's sort is stable,
    so records with the same date keep their input order; the model is an insertion
    sort with that property. */
module Sorting {
  import opened Seqs
  import opened Dates
  import opened Ledger

  /** Newest first: each record's date is not before the next one's. */
  predicate SortedDesc(s: seq<Transaction>)
  {
    forall i :: 0 < i < |s| ==> LexLe(s[i].date, s[i - 1].date)
  }

  /** The records dated `d`. */
  function OnDate(d: string): Transaction -> bool
  {
    (t: Transaction) => t.date == d
  }

  /** Puts `x` in front of the first record that is not newer than it. */
  function Insert(x: Transaction, s: seq<Transaction>): (r: seq<Transaction>)
    ensures |r| == |s| + 1
    ensures multiset(r) == multiset(s) + multiset{x}
  {
    if |s| == 0 || LexLe(s[0].date, x.date) then [x] + s
    else
      assert s == [s[0]] + s[1..];
      [s[0]] + Insert(x, s[1..])
  }

  function SortByDateDesc(s: seq<Transaction>): (r: seq<Transaction>)
    ensures |r| == |s|
    ensures multiset(r) == multiset(s)
  {
    if |s| == 0 then []
    else
      assert s == [s[0]] + s[1..];
      Insert(s[0], SortByDateDesc(s[1..]))
  }

  /** The first record after an insertion is either the inserted one or the old first. */
  lemma InsertHead(x: Transaction, s: seq<Transaction>)
    ensures Insert(x, s)[0] == x || (|s| > 0 && Insert(x, s)[0] == s[0])
  {
  }

  lemma {:induction false} InsertSorted(x: Transaction, s: seq<Transaction>)
    requires SortedDesc(s)
    ensures SortedDesc(Insert(x, s))
  {
    if |s| > 0 && !LexLe(s[0].date, x.date) {
      LexLeTotal(s[0].date, x.date);
      InsertSorted(x, s[1..]);
      InsertHead(x, s[1..]);
      var r := Insert(x, s);
      assert r == [s[0]] + Insert(x, s[1..]);
      forall i | 0 < i < |r| ensures LexLe(r[i].date, r[i - 1].date) {
        if i == 1 {
          assert r[1] == Insert(x, s[1..])[0];
        } else {
          assert r[i] == Insert(x, s[1..])[i - 1] && r[i - 1] == Insert(x, s[1..])[i - 2];
        }
      }
    }
  }

  /** The sorted list is newest first. */
  lemma {:induction false} SortIsSorted(s: seq<Transaction>)
    ensures SortedDesc(SortByDateDesc(s))
  {
    if |s| > 0 {
      SortIsSorted(s[1..]);
      InsertSorted(s[0], SortByDateDesc(s[1..]));
    }
  }

  /** Sorted newest first means every earlier record is at least as new as every later one. */
  lemma {:induction false} SortedPairwise(s: seq<Transaction>, i: nat, j: nat)
    requires SortedDesc(s) && i <= j < |s|
    ensures LexLe(s[j].date, s[i].date)
    decreases j - i
  {
    if i == j {
      LexLeRefl(s[i].date);
    } else {
      SortedPairwise(s, i + 1, j);
      LexLeTransitive(s[j].date, s[i + 1].date, s[i].date);
    }
  }

  /** Inserting a record changes the records of its own date by putting it first among them,
      and leaves the records of every other date alone. */
  lemma {:induction false} InsertOnDate(x: Transaction, s: seq<Transaction>, d: string)
    ensures Filter(OnDate(d), Insert(x, s)) == Filter(OnDate(d), [x]) + Filter(OnDate(d), s)
  {
    if |s| == 0 || LexLe(s[0].date, x.date) {
      FilterAppend(OnDate(d), [x], s);
    } else {
      InsertOnDate(x, s[1..], d);
      InsertPastNewer(x, s, d);
    }
  }

  /** The step of `InsertOnDate` where `x` moves past a newer first record. */
  lemma InsertPastNewer(x: Transaction, s: seq<Transaction>, d: string)
    requires |s| > 0 && !LexLe(s[0].date, x.date)
    requires Filter(OnDate(d), Insert(x, s[1..])) == Filter(OnDate(d), [x]) + Filter(OnDate(d), s[1..])
    ensures Filter(OnDate(d), Insert(x, s)) == Filter(OnDate(d), [x]) + Filter(OnDate(d), s)
  {
    var p := OnDate(d);
    LexLeRefl(x.date);
    var rest := Insert(x, s[1..]);
    assert Insert(x, s) == [s[0]] + rest;
    FilterAppend(p, [s[0]], rest);
    assert s == [s[0]] + s[1..];
    FilterAppend(p, [s[0]], s[1..]);
    FilterSingleton(p, x);
    FilterSingleton(p, s[0]);
    var fx, f0 := Filter(p, [x]), Filter(p, [s[0]]);
    assert fx == [] || f0 == [] by {
      assert s[0].date != x.date;
    }
    SwapEmpty(f0, fx, Filter(p, s[1..]));
  }

  /** Stability: among the records of any one date, the sorted list keeps the input order. */
  lemma {:induction false} SortIsStable(s: seq<Transaction>, d: string)
    ensures Filter(OnDate(d), SortByDateDesc(s)) == Filter(OnDate(d), s)
  {
    if |s| > 0 {
      SortIsStable(s[1..], d);
      InsertOnDate(s[0], SortByDateDesc(s[1..]), d);
      FilterAppend(OnDate(d), [s[0]], s[1..]);
      assert s == [s[0]] + s[1..];
    }
  }
}
