/**
 The account ledger: crediting an allocation to the seven account records,
 and the other handlers that replace the component state (clear all,
 edit a monthly spend, apply an optimizer suggestion, reset the
 percentages).
 */
module Ledger {
  import opened Wrappers
  import opened Categories
  import opened Income
  import opened Allocation
  import opened Optimizer

  /** The seven keys that name an account record. */
  const AccountKeys: set<Key> :=
    {MainKey(Fixed), MainKey(Flexible), MainKey(Charity),
     SubKey(RainyDay), SubKey(Retirement), SubKey(Hsa), SubKey(BigPurchases)}

  /** The main accounts `addToBalances` credits, in its order: every main category but Savings. */
  const CreditedMainKeys: seq<Key> := [MainKey(Fixed), MainKey(Flexible), MainKey(Charity)]

  /** The account keys are exactly the keys other than Savings. */
  lemma AccountKeysAreAccounts()
    ensures forall k :: k in AccountKeys <==> IsAccount(k)
  {
    forall k ensures k in AccountKeys <==> IsAccount(k) {
      match k
      case MainKey(c) => match c { case Fixed => case Flexible => case Savings => case Charity => }
      case SubKey(s) => match s { case RainyDay => case Retirement => case Hsa => case BigPurchases => }
    }
  }

  /** Whether the result carries a non-zero net amount; without one `addToBalances` does nothing (app.jsx:364). */
  predicate Credits(r: Allocation) {
    r.netAmount.Some? && r.netAmount.value != 0.0
  }

  /** The share credited to `k`: its main amount or its savings amount, zero when absent (app.jsx:371, 378). */
  function CreditOf(r: Allocation, k: Key): real {
    match k
    case MainKey(c) => if c in r.main then r.main[c] else 0.0
    case SubKey(s) => if s in r.savings then r.savings[s] else 0.0
  }

  /** One account after the credit: its balance raised by the credit, the rest kept. */
  function Credit(a: Accounts, r: Allocation, k: Key): (acc: Account)
    ensures acc.balance == BalanceOf(a, k) + CreditOf(r, k)
    ensures acc.goal == GoalOf(a, k) && acc.monthlySpend == SpendOf(a, k)
  {
    Account(BalanceOf(a, k) + CreditOf(r, k), GoalOf(a, k), SpendOf(a, k))
  }

  /** The accounts after `addToBalances(r)`. */
  function Credited(a: Accounts, r: Allocation): (n: Accounts)
    ensures !Credits(r) ==> n == a
    ensures Credits(r) ==> n.Keys == a.Keys + AccountKeys
  {
    if !Credits(r) then a
    else map k | k in a.Keys + AccountKeys :: if IsAccount(k) then Credit(a, r, k) else a[k]
  }

  /**
   A credit adds its amount to every account balance and touches nothing
   else: goals and monthly spends keep their values, and the Savings
   entry (which is not an account) is left as it was.
   */
  lemma CreditedChangesOnlyBalances(a: Accounts, r: Allocation, k: Key)
    requires Credits(r)
    ensures IsAccount(k) ==> k in Credited(a, r)
    ensures IsAccount(k) ==> BalanceOf(Credited(a, r), k) == BalanceOf(a, k) + CreditOf(r, k)
    ensures GoalOf(Credited(a, r), k) == GoalOf(a, k)
    ensures SpendOf(Credited(a, r), k) == SpendOf(a, k)
    ensures !IsAccount(k) ==> (k in Credited(a, r) <==> k in a)
    ensures !IsAccount(k) && k in a ==> Credited(a, r)[k] == a[k]
  {
    AccountKeysAreAccounts();
  }

  /** The sum of the seven account balances. */
  function LedgerTotal(a: Accounts): real {
    BalanceOf(a, MainKey(Fixed)) + BalanceOf(a, MainKey(Flexible)) + BalanceOf(a, MainKey(Charity))
    + BalanceOf(a, SubKey(RainyDay)) + BalanceOf(a, SubKey(Retirement))
    + BalanceOf(a, SubKey(Hsa)) + BalanceOf(a, SubKey(BigPurchases))
  }

  /** An allocation is credited exactly when the amount was positive. */
  lemma AllocationCreditsPositiveAmounts(amount: real, withTax: bool, mp: MainMap, sp: SubMap)
    ensures Credits(Allocate(amount, withTax, mp, sp)) <==> amount > 0.0
  {
    if amount > 0.0 && withTax {
      assert amount * (1.0 - TaxRate) > 0.0;
    }
  }

  /**
   With both percentage vectors at 100, crediting the allocation of a
   positive amount raises the total balance by exactly the net amount:
   nothing is lost in the split and nothing is credited twice.
   */
  lemma CreditedTotalGrowsByNet(a: Accounts, amount: real, withTax: bool, mp: MainMap, sp: SubMap)
    requires amount > 0.0 && MainSum(mp) == 100.0 && SubSum(sp) == 100.0
    ensures var r := Allocate(amount, withTax, mp, sp);
      LedgerTotal(Credited(a, r)) == LedgerTotal(a) + r.netAmount.value
  {
    var r := Allocate(amount, withTax, mp, sp);
    AllocationCreditsPositiveAmounts(amount, withTax, mp, sp);
    AllocationIsExact(amount, withTax, mp, sp);
    var n := Credited(a, r);
    CreditedChangesOnlyBalances(a, r, MainKey(Fixed));
    CreditedChangesOnlyBalances(a, r, MainKey(Flexible));
    CreditedChangesOnlyBalances(a, r, MainKey(Charity));
    CreditedChangesOnlyBalances(a, r, SubKey(RainyDay));
    CreditedChangesOnlyBalances(a, r, SubKey(Retirement));
    CreditedChangesOnlyBalances(a, r, SubKey(Hsa));
    CreditedChangesOnlyBalances(a, r, SubKey(BigPurchases));
    assert CreditOf(r, SubKey(RainyDay)) + CreditOf(r, SubKey(Retirement))
           + CreditOf(r, SubKey(Hsa)) + CreditOf(r, SubKey(BigPurchases)) == r.main[Savings];
    assert CreditOf(r, MainKey(Fixed)) + CreditOf(r, MainKey(Flexible)) + CreditOf(r, MainKey(Charity))
           + r.main[Savings] == r.netAmount.value;
  }

  /** A credit keeps all seven accounts present. */
  lemma CreditedKeepsAccounts(a: Accounts, r: Allocation)
    requires HasAllAccounts(a)
    ensures HasAllAccounts(Credited(a, r))
  {
    AccountKeysAreAccounts();
  }

  /** `updateMonthlySpend(key, value)`: the record for `key` with its monthly spend replaced. */
  function WithMonthlySpend(a: Accounts, k: Key, value: real): (n: Accounts)
    ensures n.Keys == a.Keys + {k}
    ensures SpendOf(n, k) == value && BalanceOf(n, k) == BalanceOf(a, k) && GoalOf(n, k) == GoalOf(a, k)
    ensures forall j :: j != k && j in a ==> n[j] == a[j]
  {
    a[k := Account(BalanceOf(a, k), GoalOf(a, k), value)]
  }

  /** Editing a monthly spend twice keeps only the second value. */
  lemma WithMonthlySpendOverwrites(a: Accounts, k: Key, v: real, w: real)
    ensures WithMonthlySpend(WithMonthlySpend(a, k, v), k, w) == WithMonthlySpend(a, k, w)
  {
  }

  /** No key appears twice in `ks`. */
  predicate Distinct(ks: seq<Key>) {
    forall i, j :: 0 <= i < j < |ks| ==> ks[i] != ks[j]
  }

  /**
   One `forEach` of `addToBalances`: each key of `ks` in turn gets its
   balance raised by its credit, keeping the rest of its record.
   */
  method CreditEach(a: Accounts, r: Allocation, ks: seq<Key>) returns (n: Accounts)
    requires Distinct(ks)
    ensures forall k :: k in n <==> k in a || k in ks
    ensures forall k :: k in n ==> n[k] == if k in ks then Credit(a, r, k) else a[k]
  {
    n := a;
    for i := 0 to |ks|
      invariant forall k :: k in n <==> k in a || k in ks[..i]
      invariant forall k :: k in n ==> n[k] == if k in ks[..i] then Credit(a, r, k) else a[k]
    {
      var key := ks[i];
      assert ks[..i + 1] == ks[..i] + [key];
      assert key !in ks[..i];
      var balance := BalanceOf(n, key) + CreditOf(r, key);
      n := n[key := Account(balance, GoalOf(n, key), SpendOf(n, key))];
    }
    assert ks[..|ks|] == ks;
  }

  /**
   The body of `addToBalances`: nothing without a net amount, otherwise the
   `forEach` over Fixed, Flexible and Charity and then the one over the
   savings sub-accounts.
   */
  method CreditAccounts(a: Accounts, r: Allocation) returns (n: Accounts)
    ensures n == Credited(a, r)
  {
    if !Credits(r) {
      return a;
    }
    PassesAreDistinct();
    var afterMain := CreditEach(a, r, CreditedMainKeys);
    n := CreditEach(afterMain, r, SavingsKeys);
    CreditInTwoPasses(a, r, afterMain, n);
  }

  /** Neither pass visits a key twice. */
  lemma PassesAreDistinct()
    ensures Distinct(CreditedMainKeys) && Distinct(SavingsKeys)
  {
  }

  /** The main pass followed by the savings pass credits exactly what `Credited` describes. */
  lemma CreditInTwoPasses(a: Accounts, r: Allocation, afterMain: Accounts, n: Accounts)
    requires Credits(r)
    requires forall k :: k in afterMain <==> k in a || k in CreditedMainKeys
    requires forall k :: k in afterMain ==>
      afterMain[k] == if k in CreditedMainKeys then Credit(a, r, k) else a[k]
    requires forall k :: k in n <==> k in afterMain || k in SavingsKeys
    requires forall k :: k in n ==>
      n[k] == if k in SavingsKeys then Credit(afterMain, r, k) else afterMain[k]
    ensures n == Credited(a, r)
  {
    var c := Credited(a, r);
    forall k ensures (k in n <==> k in c) && (k in n ==> n[k] == c[k]) {
      PassesCoverAccounts(k);
      AccountKeysAreAccounts();
    }
  }

  /** The two passes together visit exactly the account keys, and no key in both. */
  lemma PassesCoverAccounts(k: Key)
    ensures IsAccount(k) <==> k in CreditedMainKeys || k in SavingsKeys
    ensures !(k in CreditedMainKeys && k in SavingsKeys)
  {
    match k
    case MainKey(m) =>
      match m {
        case Fixed => assert CreditedMainKeys[0] == k;
        case Flexible => assert CreditedMainKeys[1] == k;
        case Charity => assert CreditedMainKeys[2] == k;
        case Savings =>
      }
    case SubKey(s) =>
      assert SavingsKeys[SubIndex(s)] == k by {
        match s { case RainyDay => case Retirement => case Hsa => case BigPurchases => }
      }
  }

  /** The long-lived state of the component that the handlers replace. */
  class BudgetState {
    var accounts: Accounts
    var mainAllocations: MainMap
    var savingsAllocations: SubMap
    var income: IncomeSettings

    /** All seven account records are present. */
    predicate Valid()
      reads this
    {
      HasAllAccounts(accounts)
    }

    /** The initial state: zero accounts, the default percentages and the initial income fields. */
    constructor ()
      ensures Valid()
      ensures accounts == ZeroAccounts
      ensures mainAllocations == DefaultMain && savingsAllocations == DefaultSub
      ensures income == InitialIncome
    {
      accounts := ZeroAccounts;
      mainAllocations := DefaultMain;
      savingsAllocations := DefaultSub;
      income := InitialIncome;
    }

    /** `addToBalances(results)` followed by `setAccounts`. */
    method AddToBalances(r: Allocation)
      requires Valid()
      modifies this
      ensures Valid()
      ensures accounts == Credited(old(accounts), r)
      ensures mainAllocations == old(mainAllocations) && savingsAllocations == old(savingsAllocations)
      ensures income == old(income)
    {
      var newAccounts := CreditAccounts(accounts, r);
      CreditedKeepsAccounts(accounts, r);
      accounts := newAccounts;
    }

    /**
     `handleRegularAddToBalances` and `handleFreelanceAddToBalances`: the
     allocation of `amount` under the current percentages, credited.
     */
    method AddPaycheck(amount: real, withTax: bool)
      requires Valid()
      modifies this
      ensures Valid()
      ensures accounts == Credited(old(accounts), Allocate(amount, withTax, mainAllocations, savingsAllocations))
      ensures mainAllocations == old(mainAllocations) && savingsAllocations == old(savingsAllocations)
      ensures income == old(income)
    {
      var results := CalculateAllocations(amount, withTax, mainAllocations, savingsAllocations);
      AddToBalances(results);
    }

    /** `clearAllData`: all seven accounts back to zero and both income fields emptied. */
    method ClearAllData()
      modifies this
      ensures Valid()
      ensures accounts == ZeroAccounts
      ensures income == old(income).(regularPaycheck := 0.0, expectedMonthlyBilling := 0.0)
      ensures mainAllocations == old(mainAllocations) && savingsAllocations == old(savingsAllocations)
    {
      accounts := ZeroAccounts;
      income := income.(regularPaycheck := 0.0, expectedMonthlyBilling := 0.0);
      DefaultsAreWellFormed();
    }

    /** `updateMonthlySpend(key, value)`. */
    method UpdateMonthlySpend(key: Key, value: real)
      requires Valid()
      modifies this
      ensures Valid()
      ensures accounts == WithMonthlySpend(old(accounts), key, value)
      ensures mainAllocations == old(mainAllocations) && savingsAllocations == old(savingsAllocations)
      ensures income == old(income)
    {
      accounts := accounts[key := Account(BalanceOf(accounts, key), GoalOf(accounts, key), value)];
    }

    /** `applyOptimalAllocations`: the suggestion replaces the main percentages, when there is one. */
    method ApplyOptimalAllocations()
      requires Valid()
      modifies this
      ensures Valid()
      ensures mainAllocations ==
        match OptimalMain(old(accounts), old(income), old(mainAllocations))
        case Some(m) => m
        case None => old(mainAllocations)
      ensures accounts == old(accounts) && savingsAllocations == old(savingsAllocations)
      ensures income == old(income)
    {
      var optimal := CalculateOptimalAllocations(accounts, income, mainAllocations);
      if optimal.Some? {
        mainAllocations := optimal.value;
      }
    }

    /** `applyOptimalSavingsAllocations`: the suggestion replaces the savings percentages. */
    method ApplyOptimalSavingsAllocations()
      requires Valid()
      modifies this
      ensures Valid()
      ensures savingsAllocations == OptimalSavings(old(accounts))
      ensures SubSum(savingsAllocations) == 100.0
      ensures accounts == old(accounts) && mainAllocations == old(mainAllocations)
      ensures income == old(income)
    {
      savingsAllocations := CalculateOptimalSavingsAllocations(accounts);
      OptimalSavingsSpreadsSavingsNeed(accounts);
    }

    /** "Reset to Defaults": both percentage vectors back to their initial values. */
    method ResetToDefaults()
      requires Valid()
      modifies this
      ensures Valid()
      ensures mainAllocations == DefaultMain && savingsAllocations == DefaultSub
      ensures MainSum(mainAllocations) == 100.0 && SubSum(savingsAllocations) == 100.0
      ensures accounts == old(accounts) && income == old(income)
    {
      mainAllocations := DefaultMain;
      savingsAllocations := DefaultSub;
      DefaultsAreWellFormed();
    }
  }
}
