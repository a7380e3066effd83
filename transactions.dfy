/** The transaction list page: a conjunction of four filters (type, free-text search,
    category, inclusive date range) over the present records, then the newest-first sort.
    The result is a fresh array, so ties keep their input order. */
module TransactionList {
  import opened Seqs
  import opened Text
  import opened Dates
  import opened Ledger
  import opened Sorting
  import opened Store

  /** The type select: `'all'`, or one transaction type. */
  datatype TypeFilter = AllTypes | OnlyType(kind: Kind)

  /** The filter controls. `category` is a category name or `"all"`; an empty `start` or
      `end` imposes no bound. */
  datatype Filters = Filters(typeFilter: TypeFilter, search: string, category: string, start: string, end: string)

  predicate MatchesType(f: TypeFilter, t: Transaction)
  {
    f.AllTypes? || t.kind == f.kind
  }

  /** Case-insensitive substring search over the description, the title, the translated
      title and the category. */
  predicate MatchesSearch(table: map<string, string>, term: string, t: Transaction)
  {
    var needle := Lower(term);
    Contains(Lower(t.description), needle) || Contains(Lower(t.title), needle)
    || Contains(Lower(Translate(table, t.title)), needle) || Contains(Lower(t.category), needle)
  }

  predicate MatchesCategory(category: string, t: Transaction)
  {
    category == "all" || t.category == category
  }

  /** `date >= start` when a start is set, and `date <= end` when an end is set. */
  predicate MatchesDate(start: string, end: string, t: Transaction)
  {
    (start != "" ==> LexLe(start, t.date)) && (end != "" ==> LexLe(t.date, end))
  }

  predicate Matches(table: map<string, string>, f: Filters, t: Transaction)
  {
    MatchesType(f.typeFilter, t) && MatchesSearch(table, f.search, t)
    && MatchesCategory(f.category, t) && MatchesDate(f.start, f.end, t)
  }

  /** The records among the array's elements; `null` and non-objects are dropped. */
  function Objects(es: seq<RawEntry>): seq<Transaction>
  {
    if |es| == 0 then [] else (if es[0].Obj? then [es[0].tx] else []) + Objects(es[1..])
  }

  lemma {:induction false} ObjectsMembers(es: seq<RawEntry>)
    ensures forall t :: t in Objects(es) <==> Obj(t) in es
  {
    if |es| > 0 {
      ObjectsMembers(es[1..]);
      assert es == [es[0]] + es[1..];
    }
  }

  /** The records that pass every filter, in input order. */
  function Selected(table: map<string, string>, f: Filters, list: RawList): seq<Transaction>
  {
    match list
    case NotArray => []
    case Array(es) => Filter((t: Transaction) => Matches(table, f, t), Objects(es))
  }

  /** `filteredTransactions`. */
  function Query(table: map<string, string>, f: Filters, list: RawList): seq<Transaction>
  {
    SortByDateDesc(Selected(table, f, list))
  }

  /** A record is listed exactly when it is an element of the array and passes all four
      filters; a value that is not an array lists nothing. */
  lemma QueryMembers(table: map<string, string>, f: Filters, list: RawList)
    ensures list.NotArray? ==> Query(table, f, list) == []
    ensures forall t :: t in Query(table, f, list) <==> list.Array? && Obj(t) in list.entries && Matches(table, f, t)
  {
    if list.Array? {
      var p := (t: Transaction) => Matches(table, f, t);
      var objs := Objects(list.entries);
      ObjectsMembers(list.entries);
      FilterMembers(p, objs);
      var sel := Selected(table, f, list);
      forall t ensures t in Query(table, f, list) <==> t in sel {
        assert multiset(Query(table, f, list)) == multiset(sel);
        assert t in Query(table, f, list) <==> t in multiset(Query(table, f, list));
        assert t in sel <==> t in multiset(sel);
      }
      forall t | Obj(t) in list.entries && Matches(table, f, t) ensures t in sel {
        var i :| 0 <= i < |objs| && objs[i] == t;
      }
    }
  }

  /** The list is newest first, holds each selected record as often as the selection does,
      and records of the same date appear in input order. */
  lemma QueryOrder(table: map<string, string>, f: Filters, list: RawList, d: string)
    ensures SortedDesc(Query(table, f, list))
    ensures multiset(Query(table, f, list)) == multiset(Selected(table, f, list))
    ensures Filter(OnDate(d), Query(table, f, list)) == Filter(OnDate(d), Selected(table, f, list))
  {
    SortIsSorted(Selected(table, f, list));
    SortIsStable(Selected(table, f, list), d);
  }

  /** An empty search term matches every record. */
  lemma EmptySearchMatches(table: map<string, string>, t: Transaction)
    ensures MatchesSearch(table, "", t)
  {
    ContainsEmpty(Lower(t.description));
  }

  /** With the initial controls (`'all'`, no search text, `'all'`, no dates) the page lists
      every record of the array, newest first. */
  lemma DefaultFiltersKeepAll(table: map<string, string>, es: seq<RawEntry>)
    ensures Query(table, Filters(AllTypes, "", "all", "", ""), Array(es)) == SortByDateDesc(Objects(es))
  {
    var f := Filters(AllTypes, "", "all", "", "");
    var objs := Objects(es);
    forall i | 0 <= i < |objs| ensures Matches(table, f, objs[i]) {
      EmptySearchMatches(table, objs[i]);
    }
    FilterAll((t: Transaction) => Matches(table, f, t), objs);
  }

  /** For well-formed dates the filter is the calendar range: a record passes exactly when it
      is on or after a set start and on or before a set end; an empty bound imposes nothing. */
  lemma DateRangeMeaning(start: string, end: string, t: Transaction)
    requires WellFormed(t.date)
    requires start == "" || WellFormed(start)
    requires end == "" || WellFormed(end)
    ensures MatchesDate(start, end, t) <==>
              (start == "" || ChronoLe(start, t.date)) && (end == "" || ChronoLe(t.date, end))
  {
    if start != "" {
      LexLeIsChronological(start, t.date);
    }
    if end != "" {
      LexLeIsChronological(t.date, end);
    }
  }

  /** The date range is inclusive: a record dated exactly on a bound passes it. */
  lemma DateRangeInclusive(start: string, end: string, t: Transaction)
    requires t.date == start || start == ""
    requires t.date == end || end == ""
    ensures MatchesDate(start, end, t)
  {
    LexLeRefl(t.date);
  }
}
