/** The list of `src/screens/subscriptions/SubscriptionsScreen.tsx`: the
    subscriptions of the selected cycle that match the search, soonest
    billing first, and their monthly cost. */
module SubscriptionsScreen {
  import opened Wrappers
  import opened Seqs
  import opened Text
  import opened Dates
  import opened Models
  import opened Helpers
  import opened Sorting

  /** The cycle selector: `'All'` or one cycle. */
  datatype CycleFilter = AllCycles | OnlyCycle(cycle: Cycle)

  /** `sub.cycle === cycle`, or everything for `'All'`. */
  predicate CycleMatches(f: CycleFilter, s: Subscription)
  {
    f.AllCycles? || s.cycle == f.cycle
  }

  function CycleMatchesOf(f: CycleFilter): Subscription -> bool
  {
    (s: Subscription) => CycleMatches(f, s)
  }

  /** The search test: the term occurs in the lower-cased name, non-empty
      service, present description or category name. */
  predicate SubscriptionMatches(s: Subscription, term: string)
  {
    Contains(ToLower(s.name), term)
    || (s.service != "" && Contains(ToLower(s.service), term))
    || (s.description.Some? && Contains(ToLower(s.description.value), term))
    || Contains(ToLower(CategoryName(s.category)), term)
  }

  function SubscriptionMatchesOf(term: string): Subscription -> bool
  {
    (s: Subscription) => SubscriptionMatches(s, term)
  }

  /** The cycle stage: skipped for `'All'`. */
  function ByCycle(subs: seq<Subscription>, f: CycleFilter): seq<Subscription>
  {
    if f.AllCycles? then subs else Filter(CycleMatchesOf(f), subs)
  }

  /** The search stage: skipped when the term is blank once trimmed. */
  function BySearch(subs: seq<Subscription>, search: string): seq<Subscription>
  {
    if Trim(search) == [] then subs else Filter(SubscriptionMatchesOf(NormalizeTerm(search)), subs)
  }

  /** The two filter stages of `applyFilters`, in order. */
  function Selected(subs: seq<Subscription>, search: string, f: CycleFilter): seq<Subscription>
  {
    BySearch(ByCycle(subs, f), search)
  }

  lemma ByCycleMembers(subs: seq<Subscription>, f: CycleFilter)
    ensures forall s :: s in ByCycle(subs, f) <==> s in subs && CycleMatches(f, s)
    ensures IsSubsequence(ByCycle(subs, f), subs)
    ensures forall s :: multiset(ByCycle(subs, f))[s] == if CycleMatches(f, s) then multiset(subs)[s] else 0
  {
    if f.AllCycles? {
      SubsequenceReflexive(subs);
    } else {
      FilterIsSubsequence(CycleMatchesOf(f), subs);
      FilterMultiset(CycleMatchesOf(f), subs);
    }
  }

  lemma BySearchMembers(subs: seq<Subscription>, search: string)
    ensures forall s :: s in BySearch(subs, search) <==>
              s in subs && (Trim(search) == [] || SubscriptionMatches(s, NormalizeTerm(search)))
    ensures IsSubsequence(BySearch(subs, search), subs)
    ensures forall s :: multiset(BySearch(subs, search))[s]
              == if Trim(search) == [] || SubscriptionMatches(s, NormalizeTerm(search)) then multiset(subs)[s] else 0
  {
    if Trim(search) == [] {
      SubsequenceReflexive(subs);
    } else {
      FilterIsSubsequence(SubscriptionMatchesOf(NormalizeTerm(search)), subs);
      FilterMultiset(SubscriptionMatchesOf(NormalizeTerm(search)), subs);
    }
  }

  /** A subscription is listed exactly when it is stored, has the selected
      cycle and, for a non-blank search, matches the trimmed lower-cased
      term. */
  lemma SelectedMembers(subs: seq<Subscription>, search: string, f: CycleFilter)
    ensures forall s :: s in Selected(subs, search, f) <==>
              s in subs && CycleMatches(f, s) && (Trim(search) == [] || SubscriptionMatches(s, NormalizeTerm(search)))
    ensures forall s :: multiset(Selected(subs, search, f))[s]
              == if CycleMatches(f, s) && (Trim(search) == [] || SubscriptionMatches(s, NormalizeTerm(search)))
                 then multiset(subs)[s] else 0
  {
    ByCycleMembers(subs, f);
    BySearchMembers(ByCycle(subs, f), search);
  }

  /** The listed subscriptions keep their stored order before sorting. */
  lemma SelectedIsSubsequence(subs: seq<Subscription>, search: string, f: CycleFilter)
    ensures IsSubsequence(Selected(subs, search, f), subs)
  {
    ByCycleMembers(subs, f);
    BySearchMembers(ByCycle(subs, f), search);
    SubsequenceTransitive(Selected(subs, search, f), ByCycle(subs, f), subs);
  }

  /** With `'All'` and a blank search every subscription is listed. */
  lemma SelectAllKeepsEverything(subs: seq<Subscription>, search: string)
    requires Trim(search) == []
    ensures Selected(subs, search, AllCycles) == subs
  {
  }

  /** `applyFilters`: works on a copy of the list, filters it, and sorts
      the copy in place by next billing date, soonest first. The list given
      is only read. */
  method ApplyFilters(subs: array<Subscription>, search: string, f: CycleFilter)
    returns (result: seq<Subscription>)
    ensures multiset(result) == multiset(Selected(subs[..], search, f))
    ensures multiset(result) <= multiset(subs[..])
    ensures SortedByDate(result, NextBilling, false)
    ensures CalculateMonthlySubscriptionCost(result) == CalculateMonthlySubscriptionCost(Selected(subs[..], search, f))
  {
    var staged := subs[..];
    if !f.AllCycles? {
      staged := Filter(CycleMatchesOf(f), staged);
    }
    assert staged == ByCycle(subs[..], f);
    if Trim(search) != [] {
      var term := NormalizeTerm(search);
      staged := Filter(SubscriptionMatchesOf(term), staged);
    }
    assert staged == Selected(subs[..], search, f);
    result := SortedCopy(staged, NextBilling, false);
    SelectedIsSubsequence(subs[..], search, f);
    SubsequenceSubMultiset(staged, subs[..]);
    MonthlyCostPermutation(result, staged);
  }
}
