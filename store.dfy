/** The state `Layout` owns and hands to every page: the transactions, the categories,
    the budget limits, the currency symbol and the language, each kept in `localStorage`
    under its own key. Storage holds values as the app reads them back after `JSON.parse`;
    serialisation itself is not modelled. */
module Store {
  import opened Seqs
  import opened Ledger

  /** A value under a storage key. `Text` is the raw text under the keys read without
      `JSON.parse` (`currency`, `language`, `sb-demo-session`) and, under the other keys, a
      parsed value that is not a list or map; `Unparseable` is text that makes `JSON.parse`
      throw. */
  datatype Stored =
    | Text(text: string)
    | TxList(list: RawList)
    | CatList(cats: seq<Category>)
    | LimitMap(limits: map<string, real>)
    | GoalList(goals: seq<Goal>)
    | SubList(items: seq<RawSub>)
    | Unparseable

  /** `localStorage`, shared by the store and the pages that keep their own lists. */
  class Storage {
    var entries: map<string, Stored>

    constructor (initial: map<string, Stored>)
      ensures entries == initial
    {
      entries := initial;
    }

    /** `localStorage.setItem(key, value)`. */
    method SetItem(key: string, value: Stored)
      modifies this
      ensures entries == old(entries)[key := value]
    {
      entries := entries[key := value];
    }
  }

  /** The value under `key` read as text: `getItem(key)`, with a missing key as `''`
      (both are falsy, which is all the callers test). */
  function TextAt(entries: map<string, Stored>, key: string): string
  {
    if key in entries && entries[key].Text? then entries[key].text else ""
  }

  /** Nothing usable is stored under `key`: `getItem` gives `null` or `''`. */
  predicate Blank(entries: map<string, Stored>, key: string)
  {
    key !in entries || entries[key] == Text("")
  }

  // ---------------------------------------------------------------- sanitiser

  /** `tx && typeof tx === 'object' && tx.id`. */
  predicate Kept(e: RawEntry)
  {
    e.Obj? && e.tx.id != 0
  }

  function SanitizeEntries(es: seq<RawEntry>): (r: seq<Transaction>)
    ensures |r| <= |es|
  {
    if |es| == 0 then []
    else (if Kept(es[0]) then [es[0].tx] else []) + SanitizeEntries(es[1..])
  }

  /** The sanitiser of the transaction setter and of the initial load; a value that is not
      an array gives the empty list. */
  function Sanitize(list: RawList): seq<Transaction>
  {
    match list
    case NotArray => []
    case Array(es) => SanitizeEntries(es)
  }

  /** Records as the elements of an array. */
  function AsRaw(txs: seq<Transaction>): (r: seq<RawEntry>)
    ensures |r| == |txs|
    ensures forall i :: 0 <= i < |txs| ==> r[i] == Obj(txs[i])
  {
    seq(|txs|, i requires 0 <= i < |txs| => Obj(txs[i]))
  }

  /** Every record has a truthy id. */
  predicate IdsSet(txs: seq<Transaction>)
  {
    forall i :: 0 <= i < |txs| ==> txs[i].id != 0
  }

  /** A record survives sanitising exactly when it is present as an object with a nonzero id. */
  lemma {:induction false} SanitizeMembers(es: seq<RawEntry>)
    ensures forall t :: t in SanitizeEntries(es) <==> Obj(t) in es && t.id != 0
  {
    if |es| > 0 {
      SanitizeMembers(es[1..]);
      assert es == [es[0]] + es[1..];
    }
  }

  /** Sanitising keeps the surviving records in their original relative order. */
  lemma {:induction false} SanitizeKeepsOrder(es: seq<RawEntry>)
    ensures IsSubsequence(AsRaw(SanitizeEntries(es)), es)
  {
    if |es| > 0 {
      SanitizeKeepsOrder(es[1..]);
      var rest := SanitizeEntries(es[1..]);
      var a := AsRaw(SanitizeEntries(es));
      if Kept(es[0]) {
        assert SanitizeEntries(es) == [es[0].tx] + rest;
        assert a[0] == es[0];
        assert a[1..] == AsRaw(rest);
      } else {
        assert SanitizeEntries(es) == rest;
      }
    }
  }

  /** Sanitising is exactly `filter`: every kept element stays, as often as it occurs, in
      its original order. */
  lemma {:induction false} SanitizeIsFilter(es: seq<RawEntry>)
    ensures AsRaw(SanitizeEntries(es)) == Filter(Kept, es)
  {
    if |es| > 0 {
      SanitizeIsFilter(es[1..]);
      var rest := SanitizeEntries(es[1..]);
      assert Filter(Kept, es) == (if Kept(es[0]) then [es[0]] else []) + Filter(Kept, es[1..]);
      if Kept(es[0]) {
        assert SanitizeEntries(es) == [es[0].tx] + rest;
        assert AsRaw([es[0].tx] + rest) == [Obj(es[0].tx)] + AsRaw(rest);
      } else {
        assert SanitizeEntries(es) == rest;
      }
    }
  }

  lemma {:induction false} SanitizeSetsIds(es: seq<RawEntry>)
    ensures IdsSet(SanitizeEntries(es))
  {
    if |es| > 0 {
      SanitizeSetsIds(es[1..]);
    }
  }

  /** A list whose records all have ids passes the sanitiser unchanged. */
  lemma {:induction false} SanitizeClean(txs: seq<Transaction>)
    requires IdsSet(txs)
    ensures SanitizeEntries(AsRaw(txs)) == txs
  {
    if |txs| > 0 {
      SanitizeClean(txs[1..]);
      assert AsRaw(txs)[1..] == AsRaw(txs[1..]);
      assert txs == [txs[0]] + txs[1..];
    }
  }

  /** Sanitising twice is sanitising once. */
  lemma SanitizeIdempotent(list: RawList)
    ensures Sanitize(Array(AsRaw(Sanitize(list)))) == Sanitize(list)
  {
    if list.Array? {
      SanitizeSetsIds(list.entries);
      SanitizeClean(SanitizeEntries(list.entries));
    }
  }

  // ---------------------------------------------------------------- loading

  /** The categories a fresh install starts with; names are translation keys. */
  const DefaultCategories: seq<Category> := [
    Category("cat_food", "cat_food", "emerald", true),
    Category("cat_transport", "cat_transport", "blue", true),
    Category("cat_entertainment", "cat_entertainment", "violet", true),
    Category("cat_rent", "cat_rent", "amber", true),
    Category("cat_health", "cat_health", "red", true),
    Category("cat_edu", "cat_edu", "indigo", true),
    Category("cat_shopping", "cat_shopping", "pink", true),
    Category("cat_gift", "cat_gift", "teal", true),
    Category("cat_freelance", "cat_freelance", "cyan", true),
    Category("Salary", "Salary", "green", true)
  ]

  /** The limits a fresh install starts with, keyed by category name. */
  const DefaultLimits: map<string, real> := map[
    "cat_food" := 300.0, "cat_entertainment" := 100.0, "cat_transport" := 150.0,
    "cat_shopping" := 200.0, "cat_rent" := 600.0, "cat_edu" := 100.0]

  /** `getItem('currency') || '$'`: the stored symbol, or `$` when none is stored. */
  function LoadCurrency(entries: map<string, Stored>): (r: string)
    ensures r != ""
    ensures r == "$" || r == TextAt(entries, "currency")
  {
    if TextAt(entries, "currency") != "" then TextAt(entries, "currency") else "$"
  }

  /** The stored language when it names a translation table, otherwise `'en'`. */
  function LoadLanguage(entries: map<string, Stored>, translations: map<string, map<string, string>>): (r: string)
    ensures r == "en" || (r in translations && r == TextAt(entries, "language"))
  {
    var saved := TextAt(entries, "language");
    if saved != "" && saved in translations then saved else "en"
  }

  /** The stored categories, the defaults when nothing is stored, and `None` when the stored
      value is not a category list (the source's initialiser throws or keeps a non-list). */
  function LoadCategories(entries: map<string, Stored>): (r: Option<seq<Category>>)
    ensures Blank(entries, "categories") ==> r == Some(DefaultCategories)
    ensures !Blank(entries, "categories") && entries["categories"].CatList? ==> r == Some(entries["categories"].cats)
    ensures r.None? <==> !Blank(entries, "categories") && !entries["categories"].CatList?
  {
    if Blank(entries, "categories") then Some(DefaultCategories)
    else if entries["categories"].CatList? then Some(entries["categories"].cats)
    else None
  }

  /** The stored limits, the defaults when nothing is stored, `None` when unreadable. */
  function LoadLimits(entries: map<string, Stored>): (r: Option<map<string, real>>)
    ensures Blank(entries, "budgetLimits") ==> r == Some(DefaultLimits)
    ensures !Blank(entries, "budgetLimits") && entries["budgetLimits"].LimitMap? ==> r == Some(entries["budgetLimits"].limits)
    ensures r.None? <==> !Blank(entries, "budgetLimits") && !entries["budgetLimits"].LimitMap?
  {
    if Blank(entries, "budgetLimits") then Some(DefaultLimits)
    else if entries["budgetLimits"].LimitMap? then Some(entries["budgetLimits"].limits)
    else None
  }

  /** A transaction array is stored (possibly holding junk elements). */
  predicate StoredArray(entries: map<string, Stored>)
  {
    "transactions" in entries && entries["transactions"].TxList? && entries["transactions"].list.Array?
  }

  /** A stored array, sanitised; anything else (nothing, unparseable text, a non-array)
      gives the demonstration list. */
  function LoadTransactions(entries: map<string, Stored>): (r: seq<Transaction>)
    ensures IdsSet(r)
    ensures StoredArray(entries) ==> forall t :: t in r <==> Obj(t) in entries["transactions"].list.entries && t.id != 0
    ensures StoredArray(entries) ==> IsSubsequence(AsRaw(r), entries["transactions"].list.entries)
    ensures StoredArray(entries) ==> AsRaw(r) == Filter(Kept, entries["transactions"].list.entries)
    ensures !StoredArray(entries) ==> r == MockTransactions
  {
    if StoredArray(entries) then
      SanitizeSetsIds(entries["transactions"].list.entries);
      SanitizeMembers(entries["transactions"].list.entries);
      SanitizeKeepsOrder(entries["transactions"].list.entries);
      SanitizeIsFilter(entries["transactions"].list.entries);
      SanitizeEntries(entries["transactions"].list.entries)
    else
      MockTransactions
  }

  // ---------------------------------------------------------------- translation

  /** The table for `language`, else the English one, else an empty table. */
  function Table(translations: map<string, map<string, string>>, language: string): map<string, string>
  {
    if language in translations then translations[language]
    else if "en" in translations then translations["en"]
    else map[]
  }

  /** `langData[key] || key || ''`: the entry when the table has a non-empty one, else the key. */
  function Translate(table: map<string, string>, key: string): (r: string)
    ensures key in table && table[key] != "" ==> r == table[key]
    ensures !(key in table && table[key] != "") ==> r == key
  {
    if key in table && table[key] != "" then table[key] else key
  }

  /** A key the table has no text for is shown as itself, and the result is empty only for
      the empty key when the table has no text for it. */
  lemma TranslateFallback(table: map<string, string>, key: string)
    ensures key !in table ==> Translate(table, key) == key
    ensures Translate(table, key) == "" <==> key == "" && (key !in table || table[key] == "")
  {
  }

  /** A system category shows its translation, a custom one its own name. */
  function Label(table: map<string, string>, c: Category): string
  {
    if c.isSystem then Translate(table, c.name) else c.name
  }

  // ---------------------------------------------------------------- the store

  class Store {
    var transactions: seq<Transaction>
    var categories: seq<Category>
    var budgetLimits: map<string, real>
    var currency: string
    var language: string
    const storage: Storage
    const translations: map<string, map<string, string>>

    /** What the storage would give back on a reload equals the state in memory. */
    predicate Persisted()
      reads this, storage
    {
      LoadTransactions(storage.entries) == transactions
      && LoadCategories(storage.entries) == Some(categories)
      && LoadLimits(storage.entries) == Some(budgetLimits)
      && LoadCurrency(storage.entries) == currency
      && LoadLanguage(storage.entries, translations) == language
    }

    /** The initialisers of the five state variables. The source throws on a stored
        category or limit value it cannot use; the model requires there is none. */
    constructor (storage: Storage, translations: map<string, map<string, string>>)
      requires LoadCategories(storage.entries).Some? && LoadLimits(storage.entries).Some?
      ensures this.storage == storage && this.translations == translations
      ensures transactions == LoadTransactions(storage.entries)
      ensures Some(categories) == LoadCategories(storage.entries)
      ensures Some(budgetLimits) == LoadLimits(storage.entries)
      ensures currency == LoadCurrency(storage.entries)
      ensures language == LoadLanguage(storage.entries, translations)
      ensures Persisted()
    {
      this.storage := storage;
      this.translations := translations;
      transactions := LoadTransactions(storage.entries);
      categories := LoadCategories(storage.entries).value;
      budgetLimits := LoadLimits(storage.entries).value;
      currency := LoadCurrency(storage.entries);
      language := LoadLanguage(storage.entries, translations);
    }

    /** `t(key)`. */
    function T(key: string): string
      reads this
    {
      Translate(Table(translations, language), key)
    }

    /** `handleSetCurrency`. */
    method SetCurrency(c: string)
      modifies this, storage
      ensures currency == c
      ensures storage.entries == old(storage.entries)["currency" := Text(c)]
      ensures transactions == old(transactions) && categories == old(categories)
      ensures budgetLimits == old(budgetLimits) && language == old(language)
      ensures LoadCurrency(storage.entries) == if c == "" then "$" else c
    {
      currency := c;
      storage.SetItem("currency", Text(c));
    }

    /** `handleSetLanguage`. */
    method SetLanguage(l: string)
      modifies this, storage
      ensures language == l
      ensures storage.entries == old(storage.entries)["language" := Text(l)]
      ensures transactions == old(transactions) && categories == old(categories)
      ensures budgetLimits == old(budgetLimits) && currency == old(currency)
      ensures LoadLanguage(storage.entries, translations) == if l != "" && l in translations then l else "en"
    {
      language := l;
      storage.SetItem("language", Text(l));
    }

    /** `handleSetCategories`. */
    method SetCategories(cats: seq<Category>)
      modifies this, storage
      ensures categories == cats
      ensures storage.entries == old(storage.entries)["categories" := CatList(cats)]
      ensures transactions == old(transactions) && budgetLimits == old(budgetLimits)
      ensures currency == old(currency) && language == old(language)
      ensures LoadCategories(storage.entries) == Some(categories)
    {
      categories := cats;
      storage.SetItem("categories", CatList(cats));
    }

    /** `handleSetBudgetLimits`. */
    method SetBudgetLimits(limits: map<string, real>)
      modifies this, storage
      ensures budgetLimits == limits
      ensures storage.entries == old(storage.entries)["budgetLimits" := LimitMap(limits)]
      ensures transactions == old(transactions) && categories == old(categories)
      ensures currency == old(currency) && language == old(language)
      ensures LoadLimits(storage.entries) == Some(budgetLimits)
    {
      budgetLimits := limits;
      storage.SetItem("budgetLimits", LimitMap(limits));
    }

    /** `handleSetTransactions`: the sanitised list becomes the state and is stored. */
    method SetTransactions(list: RawList)
      modifies this, storage
      ensures transactions == Sanitize(list)
      ensures storage.entries == old(storage.entries)["transactions" := TxList(Array(AsRaw(transactions)))]
      ensures categories == old(categories) && budgetLimits == old(budgetLimits)
      ensures currency == old(currency) && language == old(language)
      ensures LoadTransactions(storage.entries) == transactions
    {
      transactions := Sanitize(list);
      storage.SetItem("transactions", TxList(Array(AsRaw(transactions))));
      SanitizeIdempotent(list);
    }

    /** `handleAddTransaction`: the new record goes first, unsanitised, and the list is stored.
        A record with a truthy id is read back on the next load. */
    method AddTransaction(tx: Transaction)
      modifies this, storage
      ensures transactions == [tx] + old(transactions)
      ensures storage.entries == old(storage.entries)["transactions" := TxList(Array(AsRaw(transactions)))]
      ensures categories == old(categories) && budgetLimits == old(budgetLimits)
      ensures currency == old(currency) && language == old(language)
      ensures IdsSet(old(transactions)) && tx.id != 0 ==> LoadTransactions(storage.entries) == transactions
    {
      transactions := [tx] + transactions;
      storage.SetItem("transactions", TxList(Array(AsRaw(transactions))));
      if IdsSet(old(transactions)) && tx.id != 0 {
        SanitizeClean(transactions);
      }
    }
  }
}
