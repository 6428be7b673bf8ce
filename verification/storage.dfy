/** `src/services/storageService.ts`: the three AsyncStorage keys and the
    read-modify-write operations on them. The key-value store is the `Store`
    object; a key holds `None` until it is first written. A failing storage
    call is a boolean parameter: a failing read is caught and reported as
    empty, a failing write is re-thrown and reported as `false`. */
module Storage {
  import opened Wrappers
  import opened Seqs
  import opened Models

  // ---------------------------------------------------------------------
  // The collection updates, on values

  /** No two elements share an id. */
  predicate UniqueIds<T>(s: seq<T>, idOf: T -> string)
  {
    forall i, j :: 0 <= i < j < |s| ==> idOf(s[i]) != idOf(s[j])
  }

  /** Some element carries the id `key`. */
  predicate HasId<T>(s: seq<T>, key: string, idOf: T -> string)
  {
    exists i :: 0 <= i < |s| && idOf(s[i]) == key
  }

  /** `s.map(item => item.id === x.id ? x : item)`. */
  function ReplaceById<T>(s: seq<T>, x: T, idOf: T -> string): (r: seq<T>)
    ensures |r| == |s|
    ensures forall i :: 0 <= i < |r| ==> idOf(r[i]) == idOf(s[i])
    ensures forall i :: 0 <= i < |r| && idOf(s[i]) == idOf(x) ==> r[i] == x
    ensures forall i :: 0 <= i < |r| && idOf(s[i]) != idOf(x) ==> r[i] == s[i]
  {
    seq(|s|, i requires 0 <= i < |s| => if idOf(s[i]) == idOf(x) then x else s[i])
  }

  function IdIsNot<T>(key: string, idOf: T -> string): T -> bool
  {
    (x: T) => idOf(x) != key
  }

  /** `s.filter(item => item.id !== key)`. */
  function RemoveById<T(!new)>(s: seq<T>, key: string, idOf: T -> string): (r: seq<T>)
    ensures forall x :: x in r <==> x in s && idOf(x) != key
    ensures !HasId(r, key, idOf)
    ensures IsSubsequence(r, s)
    ensures forall x :: multiset(r)[x] == if idOf(x) != key then multiset(s)[x] else 0
  {
    FilterIsSubsequence(IdIsNot(key, idOf), s);
    FilterMultiset(IdIsNot(key, idOf), s);
    Filter(IdIsNot(key, idOf), s)
  }

  /** Updating an id that is not stored is a silent no-op. */
  lemma ReplaceAbsentId<T>(s: seq<T>, x: T, idOf: T -> string)
    requires !HasId(s, idOf(x), idOf)
    ensures ReplaceById(s, x, idOf) == s
  {
  }

  /** Updating twice with the same record is updating once. */
  lemma ReplaceIdempotent<T>(s: seq<T>, x: T, idOf: T -> string)
    ensures ReplaceById(ReplaceById(s, x, idOf), x, idOf) == ReplaceById(s, x, idOf)
  {
  }

  /** Updating a freshly saved record replaces exactly that record. */
  lemma ReplaceAfterAppend<T>(s: seq<T>, x: T, y: T, idOf: T -> string)
    requires !HasId(s, idOf(x), idOf) && idOf(y) == idOf(x)
    ensures ReplaceById(s + [x], y, idOf) == s + [y]
  {
    assert forall i :: 0 <= i < |s| ==> (s + [x])[i] == s[i];
  }

  /** Deleting an id that is not stored leaves the collection as it was. */
  lemma RemoveAbsentId<T(!new)>(s: seq<T>, key: string, idOf: T -> string)
    requires !HasId(s, key, idOf)
    ensures RemoveById(s, key, idOf) == s
  {
    FilterKeepsAll(IdIsNot(key, idOf), s);
  }

  /** Deleting a freshly saved record restores the collection. */
  lemma RemoveAfterAppend<T(!new)>(s: seq<T>, x: T, idOf: T -> string)
    requires !HasId(s, idOf(x), idOf)
    ensures RemoveById(s + [x], idOf(x), idOf) == s
  {
    FilterConcat(IdIsNot(idOf(x), idOf), s, [x]);
    RemoveAbsentId(s, idOf(x), idOf);
  }

  lemma {:induction false} SubsequenceUniqueIds<T>(r: seq<T>, s: seq<T>, idOf: T -> string)
    requires IsSubsequence(r, s) && UniqueIds(s, idOf)
    ensures UniqueIds(r, idOf) && forall x :: x in r ==> x in s
    decreases |s|
  {
    if r != [] {
      assert UniqueIds(s[1..], idOf) by {
        forall i, j | 0 <= i < j < |s| - 1 ensures idOf(s[1..][i]) != idOf(s[1..][j]) {
          assert s[1..][i] == s[i + 1] && s[1..][j] == s[j + 1];
        }
      }
      if r[0] == s[0] && IsSubsequence(r[1..], s[1..]) {
        SubsequenceUniqueIds(r[1..], s[1..], idOf);
        forall i, j | 0 <= i < j < |r| ensures idOf(r[i]) != idOf(r[j]) {
          if i == 0 {
            assert r[j] == r[1..][j - 1] && r[j] in s[1..];
            var k :| 0 <= k < |s[1..]| && s[1..][k] == r[j];
            assert s[k + 1] == r[j];
          } else {
            assert r[i] == r[1..][i - 1] && r[j] == r[1..][j - 1];
          }
        }
        forall x | x in r ensures x in s {
          if x == r[0] {
            assert s[0] == x;
          } else {
            var k :| 0 <= k < |r| && r[k] == x;
            assert x == r[1..][k - 1] && x in r[1..];
            assert x in s[1..];
            var m :| 0 <= m < |s[1..]| && s[1..][m] == x;
            assert s[m + 1] == x;
          }
        }
      } else {
        SubsequenceUniqueIds(r, s[1..], idOf);
      }
    }
  }

  /** Saving a record with a new id, updating and deleting keep ids unique. */
  lemma UniqueIdsPreserved<T(!new)>(s: seq<T>, x: T, key: string, idOf: T -> string)
    requires UniqueIds(s, idOf)
    ensures !HasId(s, idOf(x), idOf) ==> UniqueIds(s + [x], idOf)
    ensures UniqueIds(ReplaceById(s, x, idOf), idOf)
    ensures UniqueIds(RemoveById(s, key, idOf), idOf)
  {
    if !HasId(s, idOf(x), idOf) {
      forall i, j | 0 <= i < j < |s + [x]| ensures idOf((s + [x])[i]) != idOf((s + [x])[j]) {
        assert (s + [x])[i] == s[i];
        if j == |s| {
          assert idOf(s[i]) != idOf(x);
        }
      }
    }
    SubsequenceUniqueIds(RemoveById(s, key, idOf), s, idOf);
  }

  // ---------------------------------------------------------------------
  // The store

  /** What `getExpenses` or `getSubscriptions` hands back: the stored list,
      or an empty one when the key is absent or the read throws. */
  function ReadOrEmpty<T>(stored: Option<seq<T>>, readFails: bool): (r: seq<T>)
    ensures readFails || stored.None? ==> r == []
    ensures !readFails && stored.Some? ==> r == stored.value
  {
    if readFails then [] else stored.GetOr([])
  }

  /** An expense save whose read step threw writes the new expense over
      everything stored before. */
  lemma SaveOnFailedReadDropsStored(stored: seq<Expense>, e: Expense)
    requires stored != []
    ensures ReadOrEmpty(Some(stored), true) + [e] == [e]
    ensures ReadOrEmpty(Some(stored), true) + [e] != stored + [e]
  {
    assert |stored + [e]| > 1;
  }

  /** The AsyncStorage keys `@expense_tracker_expenses`,
      `@expense_tracker_subscriptions` and `@expense_tracker_budget`. */
  class Store {
    var expenses: Option<seq<Expense>>
    var subscriptions: Option<seq<Subscription>>
    var budget: Option<Budget>

    /** A store in which no key has been written. */
    constructor()
      ensures expenses == None && subscriptions == None && budget == None
    {
      expenses := None;
      subscriptions := None;
      budget := None;
    }

    /** `getExpenses`. */
    method GetExpenses(readFails: bool) returns (es: seq<Expense>)
      ensures es == ReadOrEmpty(expenses, readFails)
      ensures readFails ==> es == []
    {
      if readFails || expenses.None? {
        es := [];
      } else {
        es := expenses.value;
      }
    }

    /** `saveExpense`: appends to the list `getExpenses` returned. */
    method SaveExpense(e: Expense, readFails: bool, writeFails: bool) returns (ok: bool)
      modifies this`expenses
      ensures ok == !writeFails
      ensures ok ==> expenses == Some(ReadOrEmpty(old(expenses), readFails) + [e])
      ensures !ok ==> expenses == old(expenses)
    {
      var current := GetExpenses(readFails);
      if writeFails {
        return false;
      }
      expenses := Some(current + [e]);
      return true;
    }

    /** The corrected save: a failing read aborts the save instead of being
        taken for an empty list, so nothing stored is lost. */
    method SaveExpenseChecked(e: Expense, readFails: bool, writeFails: bool) returns (ok: bool)
      modifies this`expenses
      ensures ok == (!readFails && !writeFails)
      ensures ok ==> expenses == Some(old(expenses).GetOr([]) + [e])
      ensures !ok ==> expenses == old(expenses)
      ensures old(expenses).GetOr([]) <= expenses.GetOr([])
    {
      if readFails || writeFails {
        return false;
      }
      var current := GetExpenses(false);
      expenses := Some(current + [e]);
      return true;
    }

    /** `updateExpense`: replaces every stored expense with the same id. */
    method UpdateExpense(e: Expense, readFails: bool, writeFails: bool) returns (ok: bool)
      modifies this`expenses
      ensures ok == !writeFails
      ensures ok ==> expenses == Some(ReplaceById(ReadOrEmpty(old(expenses), readFails), e, ExpenseId))
      ensures !ok ==> expenses == old(expenses)
    {
      var current := GetExpenses(readFails);
      if writeFails {
        return false;
      }
      expenses := Some(ReplaceById(current, e, ExpenseId));
      return true;
    }

    /** `deleteExpense`: keeps the expenses whose id differs. */
    method DeleteExpense(key: string, readFails: bool, writeFails: bool) returns (ok: bool)
      modifies this`expenses
      ensures ok == !writeFails
      ensures ok ==> expenses == Some(RemoveById(ReadOrEmpty(old(expenses), readFails), key, ExpenseId))
      ensures !ok ==> expenses == old(expenses)
    {
      var current := GetExpenses(readFails);
      if writeFails {
        return false;
      }
      expenses := Some(RemoveById(current, key, ExpenseId));
      return true;
    }

    /** `getSubscriptions`. */
    method GetSubscriptions(readFails: bool) returns (subs: seq<Subscription>)
      ensures subs == ReadOrEmpty(subscriptions, readFails)
      ensures readFails ==> subs == []
    {
      if readFails || subscriptions.None? {
        subs := [];
      } else {
        subs := subscriptions.value;
      }
    }

    /** `saveSubscription`. */
    method SaveSubscription(s: Subscription, readFails: bool, writeFails: bool) returns (ok: bool)
      modifies this`subscriptions
      ensures ok == !writeFails
      ensures ok ==> subscriptions == Some(ReadOrEmpty(old(subscriptions), readFails) + [s])
      ensures !ok ==> subscriptions == old(subscriptions)
    {
      var current := GetSubscriptions(readFails);
      if writeFails {
        return false;
      }
      subscriptions := Some(current + [s]);
      return true;
    }

    /** `updateSubscription`. */
    method UpdateSubscription(s: Subscription, readFails: bool, writeFails: bool) returns (ok: bool)
      modifies this`subscriptions
      ensures ok == !writeFails
      ensures ok ==> subscriptions == Some(ReplaceById(ReadOrEmpty(old(subscriptions), readFails), s, SubscriptionId))
      ensures !ok ==> subscriptions == old(subscriptions)
    {
      var current := GetSubscriptions(readFails);
      if writeFails {
        return false;
      }
      subscriptions := Some(ReplaceById(current, s, SubscriptionId));
      return true;
    }

    /** `deleteSubscription`. */
    method DeleteSubscription(key: string, readFails: bool, writeFails: bool) returns (ok: bool)
      modifies this`subscriptions
      ensures ok == !writeFails
      ensures ok ==> subscriptions == Some(RemoveById(ReadOrEmpty(old(subscriptions), readFails), key, SubscriptionId))
      ensures !ok ==> subscriptions == old(subscriptions)
    {
      var current := GetSubscriptions(readFails);
      if writeFails {
        return false;
      }
      subscriptions := Some(RemoveById(current, key, SubscriptionId));
      return true;
    }

    /** `saveBudget`: overwrites the stored budget. */
    method SaveBudget(b: Budget, writeFails: bool) returns (ok: bool)
      modifies this`budget
      ensures ok == !writeFails
      ensures budget == if ok then Some(b) else old(budget)
    {
      if writeFails {
        return false;
      }
      budget := Some(b);
      return true;
    }

    /** `getBudget`: `null` when absent or when the read throws. */
    method GetBudget(readFails: bool) returns (b: Option<Budget>)
      ensures readFails ==> b == None
      ensures !readFails ==> b == budget
    {
      if readFails {
        return None;
      }
      return budget;
    }

    /** `clearAllData`: removes the three keys. */
    method ClearAllData(writeFails: bool) returns (ok: bool)
      modifies this
      ensures ok == !writeFails
      ensures ok ==> expenses == None && subscriptions == None && budget == None
      ensures !ok ==> expenses == old(expenses) && subscriptions == old(subscriptions) && budget == old(budget)
    {
      if writeFails {
        return false;
      }
      expenses := None;
      subscriptions := None;
      budget := None;
      return true;
    }
  }

  /** A saved expense can be read back, and deleting it restores the list
      read before the save. */
  method SaveThenDeleteExpense(store: Store, e: Expense) returns (before: seq<Expense>, afterSave: seq<Expense>, afterDelete: seq<Expense>)
    requires !HasId(ReadOrEmpty(store.expenses, false), e.id, ExpenseId)
    modifies store
    ensures afterSave == before + [e]
    ensures afterDelete == before
  {
    before := store.GetExpenses(false);
    var saved := store.SaveExpense(e, false, false);
    afterSave := store.GetExpenses(false);
    var deleted := store.DeleteExpense(e.id, false, false);
    afterDelete := store.GetExpenses(false);
    RemoveAfterAppend(before, e, ExpenseId);
  }

  /** Saving an expense while the read step throws and then reading the
      list back: every expense stored before is gone. */
  method SaveAfterFailedReadLosesStored(store: Store, stored: seq<Expense>, e: Expense) returns (read: seq<Expense>)
    requires store.expenses == Some(stored) && stored != []
    modifies store
    ensures read == [e]
    ensures read != stored + [e]
  {
    var saved := store.SaveExpense(e, true, false);
    read := store.GetExpenses(false);
    SaveOnFailedReadDropsStored(stored, e);
  }

  /** A saved budget is what the next read returns. */
  method SaveThenGetBudget(store: Store, b: Budget) returns (read: Option<Budget>)
    modifies store
    ensures read == Some(b)
  {
    var saved := store.SaveBudget(b, false);
    read := store.GetBudget(false);
  }
}
