/** The domain records of `src/types/models.ts`. Category and billing cycle
    are closed enumerations; the ISO date strings the app stores arrive here
    already parsed into `Date`s. */
module Models {
  import opened Wrappers
  import opened Dates

  datatype Category = Food | Transport | Entertainment | Utilities | Shopping | Health | Education | Other

  datatype Cycle = Monthly | Quarterly | Annual

  /** The eight categories in declaration order. */
  const Categories: seq<Category> := [Food, Transport, Entertainment, Utilities, Shopping, Health, Education, Other]

  lemma CategoryListed(c: Category)
    ensures c in Categories
  {
    match c
    case Food => assert Categories[0] == c;
    case Transport => assert Categories[1] == c;
    case Entertainment => assert Categories[2] == c;
    case Utilities => assert Categories[3] == c;
    case Shopping => assert Categories[4] == c;
    case Health => assert Categories[5] == c;
    case Education => assert Categories[6] == c;
    case Other => assert Categories[7] == c;
  }

  /** The category is a closed set of exactly eight values. */
  lemma CategoriesEnumerated()
    ensures |Categories| == 8
    ensures forall c: Category :: c in Categories
    ensures forall i, j :: 0 <= i < j < |Categories| ==> Categories[i] != Categories[j]
  {
    forall c: Category ensures c in Categories {
      CategoryListed(c);
    }
  }

  /** The string a category is stored and displayed as. */
  function CategoryName(c: Category): string
  {
    match c
    case Food => "Food"
    case Transport => "Transport"
    case Entertainment => "Entertainment"
    case Utilities => "Utilities"
    case Shopping => "Shopping"
    case Health => "Health"
    case Education => "Education"
    case Other => "Other"
  }

  lemma CategoryNamesDistinct(a: Category, b: Category)
    ensures CategoryName(a) == CategoryName(b) ==> a == b
  {
  }

  /** Every field is required. */
  datatype Expense = Expense(id: string, amount: real, category: Category, date: Date, description: string)

  /** Every field but `description` is required. */
  datatype Subscription = Subscription(
    id: string,
    name: string,
    service: string,
    amount: real,
    cycle: Cycle,
    startDate: Date,
    nextBillingDate: Date,
    category: Category,
    description: Option<string>)

  /** A total and a partial per-category allocation: any category may be
      absent. */
  datatype Budget = Budget(total: real, categories: map<Category, real>)

  function ExpenseId(e: Expense): string { e.id }
  function ExpenseAmount(e: Expense): real { e.amount }
  function ExpenseDate(e: Expense): Date { e.date }
  function SubscriptionId(s: Subscription): string { s.id }
  function NextBilling(s: Subscription): Date { s.nextBillingDate }

  /** Every stored expense carries a calendar date. */
  predicate DatesValid(es: seq<Expense>)
  {
    forall i :: 0 <= i < |es| ==> ValidDate(es[i].date)
  }
}
