/** The category manager: adding a custom category with the blank and duplicate checks,
    deleting one, recolouring one, and the click that copies a category into the form.
    The timestamp in a new category's id (`Date.now()`) is a parameter, as its digits. */
module ManageCategories {
  import opened Seqs
  import opened Text
  import opened Ledger
  import opened Store

  /** What a press of the add button does: nothing, an error message, or the new list. */
  datatype AddOutcome = Ignored | Rejected(error: string) | Added(categories: seq<Category>)

  /** Some category's name or its translation equals `name`, ignoring case. */
  predicate Clashes(table: map<string, string>, cats: seq<Category>, name: string)
  {
    exists i :: 0 <= i < |cats| &&
      (Lower(cats[i].name) == Lower(name) || Lower(Translate(table, cats[i].name)) == Lower(name))
  }

  /** The category an accepted name becomes: a custom one with a `cat_` id. */
  function NewCategory(name: string, color: string, stamp: string): Category
  {
    Category("cat_" + stamp, name, color, false)
  }

  /** `t('category_exists') || 'Category exists'`; the key is not empty, so `t` never gives
      the empty string and the fallback is never shown. */
  function ExistsMessage(table: map<string, string>): (m: string)
    ensures m != ""
  {
    TranslateFallback(table, "category_exists");
    Translate(table, "category_exists")
  }

  /** `handleAddCategory` as written: the duplicate test compares the untrimmed input, and
      the trimmed input is stored. */
  function AddAsWritten(table: map<string, string>, cats: seq<Category>, input: string, color: string, stamp: string): AddOutcome
  {
    if Trim(input) == "" then Ignored
    else if Clashes(table, cats, input) then Rejected(ExistsMessage(table))
    else Added(cats + [NewCategory(Trim(input), color, stamp)])
  }

  /** What a category is shown as, ignoring case. */
  function ShownKey(table: map<string, string>, c: Category): string
  {
    Lower(Label(table, c))
  }

  /** No two categories are shown with the same name, ignoring case. */
  predicate LabelsDistinct(table: map<string, string>, cats: seq<Category>)
  {
    forall i, j :: 0 <= i < j < |cats| ==> ShownKey(table, cats[i]) != ShownKey(table, cats[j])
  }

  /** With the default food category shown as "Food", typing " Food" passes the duplicate
      test, and the list then shows "Food" twice. */
  lemma AddAsWrittenLetsDuplicateIn()
    ensures var table := map["cat_food" := "Food"];
            var cats := [Category("cat_food", "cat_food", "emerald", true)];
            && LabelsDistinct(table, cats)
            && AddAsWritten(table, cats, " Food", "blue", "1") == Added(cats + [NewCategory("Food", "blue", "1")])
            && !LabelsDistinct(table, cats + [NewCategory("Food", "blue", "1")])
  {
    var table := map["cat_food" := "Food"];
    var cats := [Category("cat_food", "cat_food", "emerald", true)];
    assert !IsSpace('F') && !IsSpace('d') && IsSpace(' ');
    assert " Food"[0] == ' ' && " Food"[1..] == "Food" && "Food"[0] == 'F';
    assert TrimStart(" Food") == "Food";
    assert "Food"[|"Food"| - 1] == 'd';
    assert TrimEnd("Food") == "Food";
    assert Translate(table, "cat_food") == "Food";
    assert !Clashes(table, cats, " Food") by {
      assert |Lower(" Food")| == 5 && |Lower("cat_food")| == 8 && |Lower("Food")| == 4;
    }
    var after := cats + [NewCategory("Food", "blue", "1")];
    assert ShownKey(table, after[0]) == ShownKey(table, after[1]);
  }

  /** `handleAddCategory` with the duplicate test on the trimmed name, the one that is
      stored. */
  function Add(table: map<string, string>, cats: seq<Category>, input: string, color: string, stamp: string): AddOutcome
  {
    if Trim(input) == "" then Ignored
    else if Clashes(table, cats, Trim(input)) then Rejected(ExistsMessage(table))
    else Added(cats + [NewCategory(Trim(input), color, stamp)])
  }

  /** A name that is all white space is ignored; one that equals, ignoring case, a name or
      translation already there is rejected with the message; any other is appended as a
      custom category with the trimmed name and the chosen colour, the rest unchanged. */
  lemma AddEffect(table: map<string, string>, cats: seq<Category>, input: string, color: string, stamp: string)
    ensures Add(table, cats, input, color, stamp).Ignored? <==> forall i :: 0 <= i < |input| ==> IsSpace(input[i])
    ensures Add(table, cats, input, color, stamp).Rejected? <==> Trim(input) != "" && Clashes(table, cats, Trim(input))
    ensures Add(table, cats, input, color, stamp).Rejected? ==>
              Add(table, cats, input, color, stamp).error == Translate(table, "category_exists")
    ensures Add(table, cats, input, color, stamp).Added? ==>
              var r := Add(table, cats, input, color, stamp).categories;
              && |r| == |cats| + 1 && r[..|cats|] == cats
              && r[|cats|] == Category("cat_" + stamp, Trim(input), color, false)
              && Trim(input) != ""
  {
    TrimEmptyIffBlank(input);
    var o := Add(table, cats, input, color, stamp);
    if o.Added? {
      assert o.categories[..|cats|] == cats;
    }
  }

  /** `handleAddCategory` as written: a name that is all white space is ignored; one whose
      untrimmed text equals, ignoring case, a name or translation already there is rejected
      with the message; any other is appended with its trimmed name. On input that is
      already trimmed it agrees with `Add`. */
  lemma AddAsWrittenEffect(table: map<string, string>, cats: seq<Category>, input: string, color: string, stamp: string)
    ensures AddAsWritten(table, cats, input, color, stamp).Ignored? <==> forall i :: 0 <= i < |input| ==> IsSpace(input[i])
    ensures AddAsWritten(table, cats, input, color, stamp).Rejected? <==> Trim(input) != "" && Clashes(table, cats, input)
    ensures AddAsWritten(table, cats, input, color, stamp).Rejected? ==>
              AddAsWritten(table, cats, input, color, stamp).error == Translate(table, "category_exists")
    ensures AddAsWritten(table, cats, input, color, stamp).Added? ==>
              var r := AddAsWritten(table, cats, input, color, stamp).categories;
              && |r| == |cats| + 1 && r[..|cats|] == cats
              && r[|cats|] == Category("cat_" + stamp, Trim(input), color, false)
              && Trim(input) != ""
    ensures Trim(input) == input ==> AddAsWritten(table, cats, input, color, stamp) == Add(table, cats, input, color, stamp)
  {
    TrimEmptyIffBlank(input);
    var o := AddAsWritten(table, cats, input, color, stamp);
    if o.Added? {
      assert o.categories[..|cats|] == cats;
    }
  }

  /** The duplicate test on the trimmed name keeps every shown name distinct. */
  lemma AddKeepsLabelsDistinct(table: map<string, string>, cats: seq<Category>, input: string, color: string, stamp: string)
    requires LabelsDistinct(table, cats)
    ensures Add(table, cats, input, color, stamp).Added? ==>
              LabelsDistinct(table, Add(table, cats, input, color, stamp).categories)
  {
    var o := Add(table, cats, input, color, stamp);
    if o.Added? {
      var r := o.categories;
      var n := |cats|;
      forall i, j | 0 <= i < j < |r| ensures ShownKey(table, r[i]) != ShownKey(table, r[j]) {
        if j == n {
          assert r[i] == cats[i];
          assert ShownKey(table, r[j]) == Lower(Trim(input));
          assert !(Lower(cats[i].name) == Lower(Trim(input)) || Lower(Translate(table, cats[i].name)) == Lower(Trim(input)));
        } else {
          assert r[i] == cats[i] && r[j] == cats[j];
        }
      }
    }
  }

  /** Clicking a category copies its shown name into the form; adding that name again is
      rejected (for a name with no white space at its ends). */
  lemma PickedNameIsRejected(table: map<string, string>, cats: seq<Category>, k: nat, color: string, stamp: string)
    requires k < |cats| && Label(table, cats[k]) != "" && Trim(Label(table, cats[k])) == Label(table, cats[k])
    ensures Add(table, cats, Label(table, cats[k]), color, stamp) == Rejected(ExistsMessage(table))
  {
    assert Clashes(table, cats, Label(table, cats[k])) by {
      assert Lower(cats[k].name) == Lower(Label(table, cats[k]))
             || Lower(Translate(table, cats[k].name)) == Lower(Label(table, cats[k]));
    }
  }

  /** `categories.filter(c => c.id !== id)`. */
  function WithoutCategory(cats: seq<Category>, id: string): seq<Category>
  {
    Filter((c: Category) => c.id != id, cats)
  }

  /** Deleting keeps exactly the categories with another id, in order, and keeps the shown
      names distinct. The delete button is offered on custom categories only, so deleting
      by the id of one that no system category shares keeps every system category. */
  lemma DeleteEffect(table: map<string, string>, cats: seq<Category>, id: string)
    ensures forall c :: c in WithoutCategory(cats, id) <==> c in cats && c.id != id
    ensures IsSubsequence(WithoutCategory(cats, id), cats)
    ensures (forall c :: c in cats && c.id == id ==> !c.isSystem) ==>
              forall c :: c in cats && c.isSystem ==> c in WithoutCategory(cats, id)
    ensures LabelsDistinct(table, cats) ==> LabelsDistinct(table, WithoutCategory(cats, id))
  {
    var keep := (c: Category) => c.id != id;
    FilterMembers(keep, cats);
    FilterSubsequence(keep, cats);
    forall c | c in cats && c.id != id ensures c in WithoutCategory(cats, id) {
      var i :| 0 <= i < |cats| && cats[i] == c;
    }
    if LabelsDistinct(table, cats) {
      FilterKeepsDistinct(table, keep, cats);
    }
  }

  /** Filtering a list whose shown names are distinct leaves them distinct. */
  lemma FilterKeepsDistinct(table: map<string, string>, p: Category -> bool, cats: seq<Category>)
    requires LabelsDistinct(table, cats)
    ensures LabelsDistinct(table, Filter(p, cats))
  {
    var key := (c: Category) => ShownKey(table, c);
    assert DistinctBy(key, cats);
    FilterDistinctBy(key, p, cats);
    var r := Filter(p, cats);
    assert forall i, j :: 0 <= i < j < |r| ==> key(r[i]) != key(r[j]);
  }

  /** `categories.map(c => c.id === id ? { ...c, color } : c)`. */
  function Recolored(cats: seq<Category>, id: string, color: string): seq<Category>
  {
    Replace((c: Category) => c.id == id, (c: Category) => c.(color := color), cats)
  }

  /** Recolouring changes the colour of the categories with the id and nothing else, so the
      shown names stay as they were. */
  lemma RecolorEffect(table: map<string, string>, cats: seq<Category>, id: string, color: string)
    ensures |Recolored(cats, id, color)| == |cats|
    ensures forall i :: 0 <= i < |cats| ==>
      Recolored(cats, id, color)[i] == if cats[i].id == id then cats[i].(color := color) else cats[i]
    ensures forall i :: 0 <= i < |cats| ==> ShownKey(table, Recolored(cats, id, color)[i]) == ShownKey(table, cats[i])
    ensures LabelsDistinct(table, cats) ==> LabelsDistinct(table, Recolored(cats, id, color))
  {
    var r := Recolored(cats, id, color);
    assert forall i :: 0 <= i < |cats| ==> ShownKey(table, r[i]) == ShownKey(table, cats[i]);
  }

  /** The page's form state, over the store that owns the categories. */
  class CategoriesPage {
    var newName: string
    var selectedColor: string
    var error: string
    const store: Store

    constructor (store: Store)
      ensures this.store == store
      ensures newName == "" && selectedColor == "emerald" && error == ""
    {
      this.store := store;
      newName := "";
      selectedColor := "emerald";
      error := "";
    }

    /** `handleAddCategory`: an ignored name changes nothing; a rejected one shows the
        message and keeps the input; an accepted one goes to the store through the setter,
        and the input and the error are cleared. */
    method AddCategory(stamp: string)
      modifies this, store, store.storage
      ensures var o := Add(Table(store.translations, old(store.language)), old(store.categories),
                           old(newName), old(selectedColor), stamp);
              && (o.Ignored? ==> store.categories == old(store.categories) && error == old(error)
                                 && newName == old(newName) && store.storage.entries == old(store.storage.entries))
              && (o.Rejected? ==> store.categories == old(store.categories) && error == o.error
                                  && newName == old(newName) && store.storage.entries == old(store.storage.entries))
              && (o.Added? ==> store.categories == o.categories && error == "" && newName == ""
                               && store.storage.entries == old(store.storage.entries)["categories" := CatList(o.categories)])
      ensures selectedColor == old(selectedColor)
      ensures store.transactions == old(store.transactions) && store.budgetLimits == old(store.budgetLimits)
      ensures store.currency == old(store.currency) && store.language == old(store.language)
    {
      var o := Add(Table(store.translations, store.language), store.categories, newName, selectedColor, stamp);
      match o
      case Ignored =>
      case Rejected(message) =>
        error := message;
      case Added(cats) =>
        store.SetCategories(cats);
        newName := "";
        error := "";
    }

    /** `handleDelete` (after the confirmation), through the setter. */
    method DeleteCategory(id: string)
      modifies store, store.storage
      ensures store.categories == WithoutCategory(old(store.categories), id)
      ensures store.storage.entries == old(store.storage.entries)["categories" := CatList(store.categories)]
      ensures store.transactions == old(store.transactions) && store.budgetLimits == old(store.budgetLimits)
      ensures store.currency == old(store.currency) && store.language == old(store.language)
    {
      store.SetCategories(WithoutCategory(store.categories, id));
    }

    /** `handleUpdateColor`, through the setter. */
    method UpdateColor(id: string, color: string)
      modifies store, store.storage
      ensures store.categories == Recolored(old(store.categories), id, color)
      ensures store.storage.entries == old(store.storage.entries)["categories" := CatList(store.categories)]
      ensures store.transactions == old(store.transactions) && store.budgetLimits == old(store.budgetLimits)
      ensures store.currency == old(store.currency) && store.language == old(store.language)
    {
      store.SetCategories(Recolored(store.categories, id, color));
    }

    /** A click on a category: its shown name and its colour go into the form. */
    method Pick(c: Category)
      modifies this
      ensures newName == Label(Table(store.translations, store.language), c) && selectedColor == c.color
      ensures error == old(error)
    {
      newName := Label(Table(store.translations, store.language), c);
      selectedColor := c.color;
    }
  }
}
