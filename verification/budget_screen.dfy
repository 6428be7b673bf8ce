/** The figures of `src/screens/expenses/BudgetScreen.tsx`: loading a
    stored budget into the form, parsing the form into a budget on save, the
    sum of the per-category entries and the unallocated remainder.

    `parseFloat` and `Number.prototype.toString` are parameters: `parse`
    answers `None` where `parseFloat` gives `NaN`, and `show` renders an
    amount as text. */
module BudgetScreen {
  import opened Wrappers
  import opened Seqs
  import opened Models
  import opened Storage

  /** The form's `Record<ExpenseCategory, string>`: one text per category. */
  predicate Complete(texts: map<Category, string>)
  {
    forall c: Category :: c in texts
  }

  /** The initial record: every category holds `''`. */
  const EmptyTexts: map<Category, string> :=
    map[Food := "", Transport := "", Entertainment := "", Utilities := "",
        Shopping := "", Health := "", Education := "", Other := ""]

  lemma EmptyTextsComplete()
    ensures Complete(EmptyTexts)
    ensures forall c :: EmptyTexts[c] == ""
  {
    forall c: Category ensures c in EmptyTexts && EmptyTexts[c] == "" {
      match c
      case Food =>
      case Transport =>
      case Entertainment =>
      case Utilities =>
      case Shopping =>
      case Health =>
      case Education =>
      case Other =>
    }
  }

  /** `value && !isNaN(parseFloat(value))`. */
  predicate Parses(parse: string -> Option<real>, v: string)
  {
    v != "" && parse(v).Some?
  }

  /** A text's amount, with an empty or unparseable text counted as 0. */
  function TextAmount(parse: string -> Option<real>, v: string): real
  {
    if Parses(parse, v) then parse(v).value else 0.0
  }

  // ---------------------------------------------------------------------
  // loadBudgetData

  /** The form's state. */
  datatype BudgetForm = BudgetForm(totalText: string, texts: map<Category, string>, showCategories: bool)

  /** The texts loading a budget leaves in the form: each category present
      in the budget holds its amount as text, every other one `''`. */
  function TextsOf(b: Budget, show: real -> string): map<Category, string>
  {
    map c | c in Categories :: if c in b.categories then show(b.categories[c]) else ""
  }

  /** `Object.values(categoryValues).some(value => value !== '')`. */
  predicate HasCategoryBudgets(texts: map<Category, string>)
  {
    exists c :: c in texts && texts[c] != ""
  }

  /** The `forEach` over the budget's entries, filling a fresh record in
      place (in no particular order: each entry writes its own key). */
  method CategoryTexts(b: Budget, show: real -> string) returns (texts: map<Category, string>)
    ensures texts == TextsOf(b, show)
  {
    EmptyTextsComplete();
    texts := EmptyTexts;
    var pending := b.categories.Keys;
    while pending != {}
      invariant pending <= b.categories.Keys
      invariant Complete(texts)
      invariant forall c :: texts[c] == if c in b.categories && c !in pending then show(b.categories[c]) else ""
      decreases pending
    {
      var c :| c in pending;
      texts := texts[c := show(b.categories[c])];
      pending := pending - {c};
    }
    forall c: Category ensures c in Categories && texts[c] == TextsOf(b, show)[c] {
      CategoryListed(c);
    }
  }

  /** `loadBudgetData`: with a stored budget, the total as text, the
      per-category texts and the panel shown when some text is non-empty;
      without one (absent, or the read threw) the form is left as it was. */
  method LoadBudgetData(store: Store, readFails: bool, show: real -> string, current: BudgetForm)
    returns (form: BudgetForm)
    ensures readFails || store.budget.None? ==> form == current
    ensures !readFails && store.budget.Some? ==>
              var b := store.budget.value;
              form == BudgetForm(show(b.total), TextsOf(b, show), HasCategoryBudgets(TextsOf(b, show)))
  {
    var budget := store.GetBudget(readFails);
    if budget.None? {
      return current;
    }
    var texts := CategoryTexts(budget.value, show);
    form := BudgetForm(show(budget.value.total), texts, HasCategoryBudgets(texts));
  }

  /** The category panel opens exactly when the budget has some per-category
      amount, because an amount never renders as the empty text. */
  lemma ShowsPanelIffCategoryBudgets(b: Budget, show: real -> string)
    requires forall x :: show(x) != ""
    ensures HasCategoryBudgets(TextsOf(b, show)) <==> b.categories != map[]
  {
    var texts := TextsOf(b, show);
    if b.categories != map[] {
      var c :| c in b.categories;
      CategoryListed(c);
      var x := b.categories[c];
      assert texts[c] == show(x);
      assert show(x) != "";
    }
    if HasCategoryBudgets(texts) {
      var c :| c in texts && texts[c] != "";
      assert c in b.categories;
    }
  }

  // ---------------------------------------------------------------------
  // handleSave

  /** The categories `handleSave` puts in the budget: exactly those whose
      text is non-empty and parses, with the parsed amount. */
  function ParsedCategories(texts: map<Category, string>, parse: string -> Option<real>): map<Category, real>
  {
    map c | c in texts && Parses(parse, texts[c]) :: parse(texts[c]).value
  }

  /** The `forEach` of `handleSave` filling the partial record in place. */
  method ParseCategoryBudgets(texts: map<Category, string>, parse: string -> Option<real>)
    returns (categories: map<Category, real>)
    ensures forall c :: c in categories <==> c in texts && Parses(parse, texts[c])
    ensures forall c :: c in categories ==> c in texts && parse(texts[c]) == Some(categories[c])
    ensures categories == ParsedCategories(texts, parse)
  {
    categories := map[];
    var pending := texts.Keys;
    while pending != {}
      invariant pending <= texts.Keys
      invariant forall c :: c in categories <==> c in texts && c !in pending && Parses(parse, texts[c])
      invariant forall c :: c in categories ==> c in texts && parse(texts[c]) == Some(categories[c])
      decreases pending
    {
      var c :| c in pending;
      if Parses(parse, texts[c]) {
        categories := categories[c := parse(texts[c]).value];
      }
      pending := pending - {c};
    }
  }

  /** Loading a budget and saving the form unchanged gives back the same
      per-category amounts, provided the amount's text parses back to it. */
  lemma LoadThenSaveKeepsCategories(b: Budget, show: real -> string, parse: string -> Option<real>)
    requires forall x :: show(x) != ""
    requires forall x :: parse(show(x)) == Some(x)
    ensures ParsedCategories(TextsOf(b, show), parse) == b.categories
  {
    var texts := TextsOf(b, show);
    forall c: Category
      ensures c in ParsedCategories(texts, parse) <==> c in b.categories
      ensures c in b.categories ==> ParsedCategories(texts, parse)[c] == b.categories[c]
    {
      CategoryListed(c);
      if c in b.categories {
        var x := b.categories[c];
        assert texts[c] == show(x);
        assert show(x) != "" && parse(show(x)) == Some(x);
      } else {
        assert texts[c] == "";
      }
    }
  }

  /** How a press of the save button ends. */
  datatype SaveOutcome = InvalidTotal | Saved | SaveFailed

  /** `handleSave`: refuses an empty or unparseable total without writing;
      otherwise stores the parsed total with the parsed categories, the
      write's failure being reported. */
  method HandleSave(store: Store, form: BudgetForm, parse: string -> Option<real>, writeFails: bool)
    returns (outcome: SaveOutcome)
    modifies store`budget
    ensures outcome == InvalidTotal <==> !Parses(parse, form.totalText)
    ensures outcome == InvalidTotal ==> store.budget == old(store.budget)
    ensures outcome == Saved <==> Parses(parse, form.totalText) && !writeFails
    ensures outcome == SaveFailed ==> store.budget == old(store.budget)
    ensures outcome == Saved ==>
              store.budget == Some(Budget(parse(form.totalText).value, ParsedCategories(form.texts, parse)))
  {
    if !Parses(parse, form.totalText) {
      return InvalidTotal;
    }
    var categories := ParseCategoryBudgets(form.texts, parse);
    var ok := store.SaveBudget(Budget(parse(form.totalText).value, categories), writeFails);
    outcome := if ok then Saved else SaveFailed;
  }

  // ---------------------------------------------------------------------
  // categoryBudgetsSum and unallocatedBudget

  function TextAmountOf(texts: map<Category, string>, parse: string -> Option<real>): Category -> real
  {
    (c: Category) => if c in texts then TextAmount(parse, texts[c]) else 0.0
  }

  /** `categoryBudgetsSum`: the per-category texts added up in the record's
      order, each empty or unparseable one counting 0. */
  function CategoryBudgetsSum(texts: map<Category, string>, parse: string -> Option<real>): real
  {
    Sum(TextAmountOf(texts, parse), Categories)
  }

  /** The amount a budget allots to a category, 0 when it has none. */
  function Allotted(categories: map<Category, real>): Category -> real
  {
    (c: Category) => if c in categories then categories[c] else 0.0
  }

  /** The sum shown under the category inputs is the sum of what saving
      would store per category. */
  lemma CategoryBudgetsSumIsSaved(texts: map<Category, string>, parse: string -> Option<real>)
    ensures CategoryBudgetsSum(texts, parse) == Sum(Allotted(ParsedCategories(texts, parse)), Categories)
  {
    var cats := ParsedCategories(texts, parse);
    forall i | 0 <= i < |Categories|
      ensures Allotted(cats)(Categories[i]) == TextAmountOf(texts, parse)(Categories[i])
    {
    }
    SumPointwise(TextAmountOf(texts, parse), Categories, Allotted(cats), Categories);
  }

  /** `totalBudgetValue`: the total's text, 0 when empty or unparseable. */
  function TotalBudgetValue(totalText: string, parse: string -> Option<real>): real
  {
    TextAmount(parse, totalText)
  }

  /** `unallocatedBudget`. */
  function UnallocatedBudget(form: BudgetForm, parse: string -> Option<real>): real
  {
    TotalBudgetValue(form.totalText, parse) - CategoryBudgetsSum(form.texts, parse)
  }

  /** The amount shown as unallocated is, for a total that saving would
      accept, the saved total less the sum of the saved per-category
      amounts; for an empty or unparseable total it is minus that sum. */
  lemma UnallocatedIsTotalMinusSaved(form: BudgetForm, parse: string -> Option<real>)
    ensures Parses(parse, form.totalText) ==>
              UnallocatedBudget(form, parse)
              == parse(form.totalText).value - Sum(Allotted(ParsedCategories(form.texts, parse)), Categories)
    ensures !Parses(parse, form.totalText) ==>
              UnallocatedBudget(form, parse) == -Sum(Allotted(ParsedCategories(form.texts, parse)), Categories)
  {
    CategoryBudgetsSumIsSaved(form.texts, parse);
  }

  /** A sum over the eight categories, written out. */
  lemma SumOverCategories(f: Category -> real)
    ensures Sum(f, Categories) == f(Food) + f(Transport) + f(Entertainment) + f(Utilities)
                                  + f(Shopping) + f(Health) + f(Education) + f(Other)
  {
    var s := Categories;
    assert s[..1][..0] == s[..0] && s[0] == Food;
    assert Sum(f, s[..1]) == Sum(f, s[..0]) + f(Food);
    assert s[..2][..1] == s[..1] && s[1] == Transport;
    assert Sum(f, s[..2]) == Sum(f, s[..1]) + f(Transport);
    assert s[..3][..2] == s[..2] && s[2] == Entertainment;
    assert Sum(f, s[..3]) == Sum(f, s[..2]) + f(Entertainment);
    assert s[..4][..3] == s[..3] && s[3] == Utilities;
    assert Sum(f, s[..4]) == Sum(f, s[..3]) + f(Utilities);
    assert s[..5][..4] == s[..4] && s[4] == Shopping;
    assert Sum(f, s[..5]) == Sum(f, s[..4]) + f(Shopping);
    assert s[..6][..5] == s[..5] && s[5] == Health;
    assert Sum(f, s[..6]) == Sum(f, s[..5]) + f(Health);
    assert s[..7][..6] == s[..6] && s[6] == Education;
    assert Sum(f, s[..7]) == Sum(f, s[..6]) + f(Education);
    assert s[..8][..7] == s[..7] && s[7] == Other;
    assert Sum(f, s[..8]) == Sum(f, s[..7]) + f(Other);
    assert s[..8] == s;
  }

  /** With 300 for food, 200 for transport and nothing else, the total
      minus 500 is left unallocated: 500 of a total of 1000, and a negative
      amount when the total is below 500. */
  lemma UnallocatedExample(parse: string -> Option<real>, form: BudgetForm, total: real)
    requires parse("300") == Some(300.0) && parse("200") == Some(200.0)
    requires form.totalText != "" && parse(form.totalText) == Some(total)
    requires Complete(form.texts) && form.texts[Food] == "300" && form.texts[Transport] == "200"
    requires forall c :: c != Food && c != Transport ==> form.texts[c] == ""
    ensures UnallocatedBudget(form, parse) == total - 500.0
  {
    SumOverCategories(TextAmountOf(form.texts, parse));
  }
}
