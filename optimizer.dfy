/**
 The two optimizers: suggest main percentages from the monthly need of the
 accounts (goal gap spread over a year plus monthly spend), keeping
 charity at its floor, and suggest savings sub-percentages the same way.
 */
module Optimizer {
  import opened Wrappers
  import opened Categories
  import opened Income
  import opened JsMath

  /** What is still missing to reach the goal, or 0 once it is reached (app.jsx:424, 488). */
  function GoalGap(a: Accounts, k: Key): real {
    if GoalOf(a, k) - BalanceOf(a, k) > 0.0 then GoalOf(a, k) - BalanceOf(a, k) else 0.0
  }

  /** What an account needs each month: a twelfth of its goal gap, plus its spend. */
  function Need(a: Accounts, k: Key): real {
    GoalGap(a, k) / 12.0 + SpendOf(a, k)
  }

  /** The need is the spend plus a non-negative goal part that vanishes once the goal is met. */
  lemma NeedCoversSpend(a: Accounts, k: Key)
    ensures Need(a, k) >= SpendOf(a, k)
    ensures Need(a, k) == SpendOf(a, k) <==> BalanceOf(a, k) >= GoalOf(a, k)
  {
  }

  /** The needs of the accounts `ks[i..]`, a missing account needing nothing but its zero spend. */
  function NeedFrom(a: Accounts, ks: seq<Key>, i: nat): real
    requires i <= |ks|
    decreases |ks| - i
  {
    if i == |ks| then 0.0 else Need(a, ks[i]) + NeedFrom(a, ks, i + 1)
  }

  const OperatingKeys: seq<Key> := [MainKey(Fixed), MainKey(Flexible)]

  const SavingsKeys: seq<Key> :=
    [SubKey(RainyDay), SubKey(Retirement), SubKey(Hsa), SubKey(BigPurchases)]

  /** `SavingsKeys` lists the sub-accounts in display order. */
  lemma SavingsKeysFollowSubOrder()
    ensures |SavingsKeys| == |SubOrder|
    ensures forall i :: 0 <= i < |SubOrder| ==> SavingsKeys[i] == SubKey(SubOrder[i])
  {
  }

  /** `totalSavingsNeed`. */
  function SavingsNeed(a: Accounts): real {
    NeedFrom(a, SavingsKeys, 0)
  }

  /** `totalNeed`: the two operating accounts and the savings sub-accounts. */
  function TotalNeed(a: Accounts): real {
    NeedFrom(a, OperatingKeys, 0) + SavingsNeed(a)
  }

  /** Four accounts' needs, one after the other. */
  lemma NeedFromFour(a: Accounts, ks: seq<Key>)
    requires |ks| == 4
    ensures NeedFrom(a, ks, 0) == Need(a, ks[0]) + Need(a, ks[1]) + Need(a, ks[2]) + Need(a, ks[3])
  {
    assert NeedFrom(a, ks, 4) == 0.0;
    assert NeedFrom(a, ks, 3) == Need(a, ks[3]);
    assert NeedFrom(a, ks, 2) == Need(a, ks[2]) + NeedFrom(a, ks, 3);
    assert NeedFrom(a, ks, 1) == Need(a, ks[1]) + NeedFrom(a, ks, 2);
  }

  /** The savings need adds up the four savings sub-accounts. */
  lemma SavingsNeedAddsAccounts(a: Accounts)
    ensures SavingsNeed(a) == Need(a, SubKey(RainyDay)) + Need(a, SubKey(Retirement))
                              + Need(a, SubKey(Hsa)) + Need(a, SubKey(BigPurchases))
  {
    SavingsKeysNeed(a, SavingsKeys);
  }

  /** The needs over a key sequence that lists the four savings sub-accounts. */
  lemma SavingsKeysNeed(a: Accounts, ks: seq<Key>)
    requires ks == SavingsKeys
    ensures NeedFrom(a, ks, 0) == Need(a, SubKey(RainyDay)) + Need(a, SubKey(Retirement))
                                  + Need(a, SubKey(Hsa)) + Need(a, SubKey(BigPurchases))
  {
    NeedFromFour(a, ks);
    assert ks[0] == SubKey(RainyDay) && ks[1] == SubKey(Retirement);
    assert ks[2] == SubKey(Hsa) && ks[3] == SubKey(BigPurchases);
  }

  /** Two accounts' needs, one after the other. */
  lemma NeedFromTwo(a: Accounts, ks: seq<Key>)
    requires |ks| == 2
    ensures NeedFrom(a, ks, 0) == Need(a, ks[0]) + Need(a, ks[1])
  {
    assert NeedFrom(a, ks, 2) == 0.0;
  }

  /** The total need adds the two operating accounts to the savings need. */
  lemma TotalNeedAddsAccounts(a: Accounts)
    ensures TotalNeed(a) == Need(a, MainKey(Fixed)) + Need(a, MainKey(Flexible)) + SavingsNeed(a)
  {
    OperatingKeysNeed(a, OperatingKeys);
  }

  /** The needs over a key sequence that lists the two operating accounts. */
  lemma OperatingKeysNeed(a: Accounts, ks: seq<Key>)
    requires ks == OperatingKeys
    ensures NeedFrom(a, ks, 0) == Need(a, MainKey(Fixed)) + Need(a, MainKey(Flexible))
  {
    NeedFromTwo(a, ks);
    assert ks[0] == MainKey(Fixed) && ks[1] == MainKey(Flexible);
  }

  /**
   The `forEach` that adds up each account's need (a twelfth of its goal
   gap plus its spend) over the accounts `ks`, in order.
   */
  method SumNeeds(a: Accounts, ks: seq<Key>) returns (total: real)
    ensures total == NeedFrom(a, ks, 0)
  {
    total := 0.0;
    for i := 0 to |ks|
      invariant total + NeedFrom(a, ks, i) == NeedFrom(a, ks, 0)
    {
      var monthlyNeed := Need(a, ks[i]);
      total := total + monthlyNeed;
    }
  }

  /** The need's share of `available`, kept within `0..available`. */
  function ClampedShare(need: real, total: real, available: real): real
    requires total > 0.0
  {
    Min(available, Max(0.0, (need / total) * available))
  }

  /** The clamped share of the need, rounded to five (app.jsx:449-450). */
  function NeedPercent(need: real, total: real, available: real): (r: real)
    requires total > 0.0
    ensures MultipleOfFive(r)
    ensures available >= 0.0 ==> r >= 0.0
  {
    var clamped := ClampedShare(need, total, available);
    RoundToFiveKeepsSign(clamped);
    RoundToFive(clamped)
  }

  /** The rounded share is the nearest multiple of five to the clamped share of the need. */
  lemma NeedPercentRoundsShare(need: real, total: real, available: real)
    requires total > 0.0
    ensures var c := ClampedShare(need, total, available);
      NeedPercent(need, total, available) - 2.5 <= c < NeedPercent(need, total, available) + 2.5
    ensures available >= 0.0 ==> 0.0 <= ClampedShare(need, total, available) <= available
  {
  }

  /**
   The operating floor (app.jsx:454-457): the spend as a percentage of
   income, rounded up to a multiple of five, or 0 when there is no spend.
   */
  function MinOperatingPercent(spend: real, income: real): (r: real)
    requires income > 0.0
    ensures MultipleOfFive(r) && r >= 0.0
    ensures spend <= 0.0 ==> r == 0.0
  {
    if spend > 0.0 then
      var c := Ceil(spend / income * 100.0 / 5.0);
      TimesFiveIsMultiple(c);
      (c * 5) as real
    else 0.0
  }

  /**
   The floor is the least multiple of five percent of `income` that covers
   `spend`.
   */
  lemma MinOperatingPercentCoversSpend(spend: real, income: real)
    requires income > 0.0 && spend > 0.0
    ensures var r := MinOperatingPercent(spend, income);
      && r >= 5.0
      && r * income >= spend * 100.0
      && (r - 5.0) * income < spend * 100.0
  {
    var c := Ceil(spend / income * 100.0 / 5.0);
    assert spend / income * 100.0 / 5.0 == (spend * 20.0) / income;
    CeilQuotient(spend * 20.0, income);
    assert (c * 5) as real * income == 5.0 * (c as real * income);
    assert ((c * 5) as real - 5.0) * income == 5.0 * ((c - 1) as real * income);
  }

  /** The dashboard percentages for Fixed, Flexible and Savings. */
  datatype Split = Split(fixed: real, flexible: real, savings: real)

  /**
   The need branch: each share of `available` by need, rounded to five,
   then Fixed and Flexible lifted to their floors.
   */
  function NeedSplit(fixedNeed: real, flexibleNeed: real, savingsNeed: real,
                     minFixed: real, minFlexible: real, available: real): (r: Split)
    requires fixedNeed + flexibleNeed + savingsNeed > 0.0
    ensures r.fixed >= minFixed && r.flexible >= minFlexible
    ensures MultipleOfFive(minFixed) && MultipleOfFive(minFlexible) ==>
      MultipleOfFive(r.fixed) && MultipleOfFive(r.flexible)
    ensures MultipleOfFive(r.savings)
    ensures available >= 0.0 && minFixed >= 0.0 && minFlexible >= 0.0 ==>
      r.fixed >= 0.0 && r.flexible >= 0.0 && r.savings >= 0.0
  {
    var totalNeed := fixedNeed + flexibleNeed + savingsNeed;
    var fixed := NeedPercent(fixedNeed, totalNeed, available);
    var flexible := NeedPercent(flexibleNeed, totalNeed, available);
    var savings := NeedPercent(savingsNeed, totalNeed, available);
    Split(if fixed < minFixed then minFixed else fixed,
          if flexible < minFlexible then minFlexible else flexible,
          savings)
  }

  /**
   Fixed and Flexible come out at their rounded share of the need, raised
   to their floor only when below it; Savings at its rounded share.
   */
  lemma NeedSplitFollowsNeeds(fixedNeed: real, flexibleNeed: real, savingsNeed: real,
                              minFixed: real, minFlexible: real, available: real)
    requires fixedNeed + flexibleNeed + savingsNeed > 0.0
    ensures var r := NeedSplit(fixedNeed, flexibleNeed, savingsNeed, minFixed, minFlexible, available);
      var total := fixedNeed + flexibleNeed + savingsNeed;
      && r.fixed == Max(NeedPercent(fixedNeed, total, available), minFixed)
      && r.flexible == Max(NeedPercent(flexibleNeed, total, available), minFlexible)
      && r.savings == NeedPercent(savingsNeed, total, available)
  {
  }

  /** The zero-need branch: half and a fifth of `available`, rounded to five, the rest to savings. */
  function BalancedSplit(available: real): (r: Split)
    ensures MultipleOfFive(r.fixed) && MultipleOfFive(r.flexible)
    ensures r.fixed - 2.5 <= available * 0.5 < r.fixed + 2.5
    ensures r.flexible - 2.5 <= available * 0.2 < r.flexible + 2.5
    ensures r.fixed + r.flexible + r.savings == available
  {
    var fixed := RoundToFive(available * 0.5);
    var flexible := RoundToFive(available * 0.2);
    Split(fixed, flexible, available - fixed - flexible)
  }

  /**
   The normalisation step: when the three shares miss `available`, savings
   takes up the difference, but never goes below zero.
   */
  function Normalize(x: Split, available: real): (r: Split)
    ensures r.fixed == x.fixed && r.flexible == x.flexible
    ensures x.fixed + x.flexible + x.savings == available ==> r == x
    ensures x.fixed + x.flexible + x.savings != available ==>
      r.savings == Max(0.0, available - x.fixed - x.flexible)
  {
    var nonCharitySum := x.fixed + x.flexible + x.savings;
    if nonCharitySum != available then
      x.(savings := Max(0.0, x.savings + (available - nonCharitySum)))
    else x
  }

  /**
   The suggestion for a positive monthly income, from the figures it
   depends on: the current charity share, the three needs and the two
   operating spends.
   */
  function Suggest(income: real, currentCharity: real,
                   fixedNeed: real, flexibleNeed: real, savingsNeed: real,
                   fixedSpend: real, flexibleSpend: real): MainMap
    requires income > 0.0
  {
    var charityPercent := Max(currentCharity, MinCharityPercent);
    var availablePercent := 100.0 - charityPercent;
    var split := Proposal(income, fixedNeed, flexibleNeed, savingsNeed,
                          fixedSpend, flexibleSpend, availablePercent);
    MainPercents(charityPercent, Normalize(split, availablePercent))
  }

  /** The split before normalisation: by need when there is some, balanced otherwise. */
  function Proposal(income: real, fixedNeed: real, flexibleNeed: real, savingsNeed: real,
                    fixedSpend: real, flexibleSpend: real, available: real): Split
    requires income > 0.0
  {
    if fixedNeed + flexibleNeed + savingsNeed > 0.0 then
      NeedSplit(fixedNeed, flexibleNeed, savingsNeed,
                MinOperatingPercent(fixedSpend, income), MinOperatingPercent(flexibleSpend, income),
                available)
    else BalancedSplit(available)
  }

  /** The four main percentages from the charity share and the other three. */
  function MainPercents(charity: real, x: Split): (m: MainMap)
    ensures m[Charity] == charity && m[Fixed] == x.fixed
    ensures m[Flexible] == x.flexible && m[Savings] == x.savings
    ensures MainSum(m) == charity + x.fixed + x.flexible + x.savings
  {
    map[Charity := charity, Fixed := x.fixed, Flexible := x.flexible, Savings := x.savings]
  }

  /** `calculateOptimalAllocations`; `None` is its `null`. */
  function OptimalMain(a: Accounts, s: IncomeSettings, mp: MainMap): (r: Option<MainMap>)
    ensures r.None? <==> PlanningIncome(s).None?
  {
    match PlanningIncome(s)
    case None => None
    case Some(monthlyIncome) =>
      MainMapTotal(mp);
      Some(Suggest(monthlyIncome, mp[Charity],
                   Need(a, MainKey(Fixed)), Need(a, MainKey(Flexible)), SavingsNeed(a),
                   SpendOf(a, MainKey(Fixed)), SpendOf(a, MainKey(Flexible))))
  }

  /** Charity is the current charity share raised to the minimum. */
  lemma SuggestKeepsCharityFloor(income: real, currentCharity: real,
                                 fixedNeed: real, flexibleNeed: real, savingsNeed: real,
                                 fixedSpend: real, flexibleSpend: real)
    requires income > 0.0
    ensures var m := Suggest(income, currentCharity, fixedNeed, flexibleNeed, savingsNeed,
                             fixedSpend, flexibleSpend);
      m[Charity] == Max(currentCharity, MinCharityPercent) && m[Charity] >= MinCharityPercent
  {
  }

  /**
   With some need, Fixed and Flexible are multiples of five at or above
   their floors, Savings takes what is left of the available share (never
   less than zero while charity is at most 100), and the four add up to 100 exactly when Fixed and
   Flexible fit in the available share.
   */
  lemma SuggestNeedBranch(income: real, currentCharity: real,
                          fixedNeed: real, flexibleNeed: real, savingsNeed: real,
                          fixedSpend: real, flexibleSpend: real)
    requires income > 0.0 && fixedNeed + flexibleNeed + savingsNeed > 0.0
    ensures var m := Suggest(income, currentCharity, fixedNeed, flexibleNeed, savingsNeed,
                             fixedSpend, flexibleSpend);
      var available := 100.0 - m[Charity];
      && MultipleOfFive(m[Fixed]) && MultipleOfFive(m[Flexible])
      && m[Fixed] >= MinOperatingPercent(fixedSpend, income)
      && m[Flexible] >= MinOperatingPercent(flexibleSpend, income)
      && (available >= 0.0 ==>
            && m[Fixed] >= 0.0 && m[Flexible] >= 0.0 && m[Savings] >= 0.0
            && m[Savings] == Max(0.0, available - m[Fixed] - m[Flexible])
            && (MainSum(m) == 100.0 <==> m[Fixed] + m[Flexible] <= available))
  {
    var available := 100.0 - Max(currentCharity, MinCharityPercent);
    var split := NeedSplit(fixedNeed, flexibleNeed, savingsNeed,
                           MinOperatingPercent(fixedSpend, income), MinOperatingPercent(flexibleSpend, income),
                           available);
    assert available >= 0.0 ==> split.savings >= 0.0;
  }

  /**
   With no need, Fixed and Flexible are half and a fifth of the available
   share rounded to five, and the four add up to exactly 100.
   */
  lemma SuggestBalancedBranch(income: real, currentCharity: real,
                              fixedNeed: real, flexibleNeed: real, savingsNeed: real,
                              fixedSpend: real, flexibleSpend: real)
    requires income > 0.0 && fixedNeed + flexibleNeed + savingsNeed <= 0.0
    ensures var m := Suggest(income, currentCharity, fixedNeed, flexibleNeed, savingsNeed,
                             fixedSpend, flexibleSpend);
      var available := 100.0 - m[Charity];
      && MultipleOfFive(m[Fixed]) && MultipleOfFive(m[Flexible])
      && m[Fixed] - 2.5 <= available * 0.5 < m[Fixed] + 2.5
      && m[Flexible] - 2.5 <= available * 0.2 < m[Flexible] + 2.5
      && MainSum(m) == 100.0
  {
  }

  /** The suggestion for the accounts, in terms of what they hold. */
  lemma OptimalMainIsSuggest(a: Accounts, s: IncomeSettings, mp: MainMap)
    requires PlanningIncome(s).Some?
    ensures Need(a, MainKey(Fixed)) + Need(a, MainKey(Flexible)) + SavingsNeed(a) == TotalNeed(a)
    ensures OptimalMain(a, s, mp) ==
      Some(Suggest(PlanningIncome(s).value, mp[Charity],
                   Need(a, MainKey(Fixed)), Need(a, MainKey(Flexible)), SavingsNeed(a),
                   SpendOf(a, MainKey(Fixed)), SpendOf(a, MainKey(Flexible))))
  {
    MainMapTotal(mp);
    TotalNeedAddsAccounts(a);
  }

  /** Charity is the current charity share raised to the minimum. */
  lemma OptimalMainCharity(a: Accounts, s: IncomeSettings, mp: MainMap, m: MainMap)
    requires OptimalMain(a, s, mp) == Some(m)
    ensures m[Charity] == Max(mp[Charity], MinCharityPercent)
  {
    MainMapTotal(mp);
    OptimalMainIsSuggest(a, s, mp);
  }

  /**
   The suggestion reads the current percentages only through charity, so
   applying it and asking again gives the same suggestion.
   */
  lemma OptimalMainIsStable(a: Accounts, s: IncomeSettings, mp: MainMap, mp': MainMap)
    requires OptimalMain(a, s, mp).Some?
    ensures mp'[Charity] == mp[Charity] ==> OptimalMain(a, s, mp') == OptimalMain(a, s, mp)
    ensures OptimalMain(a, s, OptimalMain(a, s, mp).value) == OptimalMain(a, s, mp)
  {
    var m := OptimalMain(a, s, mp).value;
    OptimalMainCharity(a, s, mp, m);
    OptimalMainIsSuggest(a, s, mp);
    OptimalMainIsSuggest(a, s, mp');
    OptimalMainIsSuggest(a, s, m);
    assert Max(m[Charity], MinCharityPercent) == m[Charity];
  }

  /**
   The body of `calculateOptimalAllocations`, with the need totals
   accumulated in its `forEach` loops.
   */
  method CalculateOptimalAllocations(a: Accounts, s: IncomeSettings, mp: MainMap)
    returns (r: Option<MainMap>)
    ensures r == OptimalMain(a, s, mp)
  {
    // the monthly income the optimizer plans with, or `return null`
    var planned := PlanningIncome(s);
    if planned.None? {
      return None;
    }
    var monthlyIncome := planned.value;

    MainMapTotal(mp);
    var charityPercent := Max(mp[Charity], MinCharityPercent);
    var availablePercent := 100.0 - charityPercent;

    var operatingNeed := SumNeeds(a, OperatingKeys);
    var totalSavingsNeed := SumNeeds(a, SavingsKeys);
    var totalNeed := operatingNeed + totalSavingsNeed;
    var fixedNeed, flexibleNeed := Need(a, MainKey(Fixed)), Need(a, MainKey(Flexible));
    var fixedSpend, flexibleSpend := SpendOf(a, MainKey(Fixed)), SpendOf(a, MainKey(Flexible));
    TotalNeedAddsAccounts(a);
    assert totalNeed == fixedNeed + flexibleNeed + totalSavingsNeed;

    var split := ProposeSplit(monthlyIncome, fixedNeed, flexibleNeed, totalSavingsNeed,
                              fixedSpend, flexibleSpend, availablePercent);
    var normalized := NormalizeSplit(split, availablePercent);
    var main := MainPercents(charityPercent, normalized);
    assert main == Suggest(monthlyIncome, mp[Charity], fixedNeed, flexibleNeed, totalSavingsNeed,
                           fixedSpend, flexibleSpend);
    OptimalMainIsSuggest(a, s, mp);
    r := Some(main);
  }

  /** The two branches of `calculateOptimalAllocations` that fill in Fixed, Flexible and Savings. */
  method ProposeSplit(income: real, fixedNeed: real, flexibleNeed: real, savingsNeed: real,
                      fixedSpend: real, flexibleSpend: real, available: real)
    returns (x: Split)
    requires income > 0.0
    ensures x == Proposal(income, fixedNeed, flexibleNeed, savingsNeed, fixedSpend, flexibleSpend, available)
  {
    var totalNeed := fixedNeed + flexibleNeed + savingsNeed;
    var fixed, flexible, savings;
    if totalNeed > 0.0 {
      fixed := NeedPercent(fixedNeed, totalNeed, available);
      flexible := NeedPercent(flexibleNeed, totalNeed, available);
      savings := NeedPercent(savingsNeed, totalNeed, available);
      var minFixed := MinOperatingPercent(fixedSpend, income);
      var minFlexible := MinOperatingPercent(flexibleSpend, income);
      if fixed < minFixed {
        fixed := minFixed;
      }
      if flexible < minFlexible {
        flexible := minFlexible;
      }
    } else {
      fixed := RoundToFive(available * 0.5);
      flexible := RoundToFive(available * 0.2);
      savings := available - fixed - flexible;
    }
    x := Split(fixed, flexible, savings);
  }

  /** The normalisation step of `calculateOptimalAllocations`. */
  method NormalizeSplit(x: Split, available: real) returns (y: Split)
    ensures y == Normalize(x, available)
  {
    var savings := x.savings;
    var nonCharitySum := x.fixed + x.flexible + x.savings;
    if nonCharitySum != available {
      var diff := available - nonCharitySum;
      savings := Max(0.0, savings + diff);
    }
    y := x.(savings := savings);
  }

  // ---------------------------------------------------------------------
  // Savings sub-allocations

  /** The last of the first `n` keys of `ss` holding the largest value: the `reduce` with a strict `>`. */
  function MaxKeyOf(m: SubMap, ss: seq<Sub>, n: nat): Sub
    requires 0 < n <= |ss|
  {
    SubMapTotal(m);
    if n == 1 then ss[0]
    else
      var best := MaxKeyOf(m, ss, n - 1);
      if m[best] > m[ss[n - 1]] then best else ss[n - 1]
  }

  /** The key `reduce` picks over the sub-categories in display order. */
  function MaxKey(m: SubMap): Sub {
    MaxKeyOf(m, SubOrder, |SubOrder|)
  }

  /**
   Among the first `n` keys of `ss`, the picked key sits at a position `j`
   where its value is the largest, and every later key holds strictly less.
   */
  lemma {:induction false} MaxKeyOfIsLastMaximum(m: SubMap, ss: seq<Sub>, n: nat) returns (j: nat)
    requires 0 < n <= |ss|
    ensures j < n && ss[j] == MaxKeyOf(m, ss, n)
    ensures ss[j] in m && forall i :: 0 <= i < n ==> ss[i] in m && m[ss[i]] <= m[ss[j]]
    ensures forall i :: j < i < n ==> ss[i] in m && m[ss[i]] < m[ss[j]]
  {
    SubMapTotal(m);
    if n == 1 {
      j := 0;
    } else {
      var j0 := MaxKeyOfIsLastMaximum(m, ss, n - 1);
      if m[ss[j0]] > m[ss[n - 1]] {
        j := j0;
      } else {
        j := n - 1;
      }
    }
  }

  /** Position in display order. */
  function SubIndex(s: Sub): (i: nat)
    ensures i < |SubOrder| && SubOrder[i] == s
  {
    match s
    case RainyDay => 0
    case Retirement => 1
    case Hsa => 2
    case BigPurchases => 3
  }

  /** `MaxKey` holds the largest value, and every key after it in display order holds less. */
  lemma MaxKeyIsLastMaximum(m: SubMap)
    ensures MaxKey(m) in m && forall s :: s in m && m[s] <= m[MaxKey(m)]
    ensures forall s :: SubIndex(s) > SubIndex(MaxKey(m)) ==> s in m && m[s] < m[MaxKey(m)]
  {
    SubMapTotal(m);
    var j := MaxKeyOfIsLastMaximum(m, SubOrder, |SubOrder|);
    assert SubIndex(SubOrder[j]) == j by {
      if j == 0 {} else if j == 1 {} else if j == 2 {} else {}
    }
    forall s ensures s in m && m[s] <= m[MaxKey(m)] {
      assert SubOrder[SubIndex(s)] == s;
    }
    forall s | SubIndex(s) > SubIndex(MaxKey(m)) ensures s in m && m[s] < m[MaxKey(m)] {
      assert SubOrder[SubIndex(s)] == s;
    }
  }

  /** `optimalSavings` before the remainder is added: each sub-need's rounded share of 100. */
  function RoundedShares(n0: real, n1: real, n2: real, n3: real): (r: SubMap)
    requires n0 + n1 + n2 + n3 > 0.0
  {
    var t := n0 + n1 + n2 + n3;
    map[RainyDay := NeedPercent(n0, t, 100.0), Retirement := NeedPercent(n1, t, 100.0),
        Hsa := NeedPercent(n2, t, 100.0), BigPurchases := NeedPercent(n3, t, 100.0)]
  }

  /** Every sub-category at 25. */
  const EvenSavings: SubMap := map[RainyDay := 25.0, Retirement := 25.0, Hsa := 25.0, BigPurchases := 25.0]

  /**
   The sub-percentages from the four monthly needs, in display order: the
   rounded shares, with the remainder to 100 added to the key `MaxKey`
   picks, or 25 each when nothing is needed.
   */
  function SplitSavings(n0: real, n1: real, n2: real, n3: real): SubMap {
    if n0 + n1 + n2 + n3 > 0.0 then AddRemainder(RoundedShares(n0, n1, n2, n3))
    else EvenSavings
  }

  /** When the values miss 100 but are positive, the key `MaxKey` picks takes up the difference. */
  function AddRemainder(optimal: SubMap): SubMap {
    var savingsSum := SubSum(optimal);
    if savingsSum != 100.0 && savingsSum > 0.0 then
      var maxKey := MaxKey(optimal);
      SubMapTotal(optimal);
      optimal[maxKey := optimal[maxKey] + (100.0 - savingsSum)]
    else
      optimal
  }

  /** `calculateOptimalSavingsAllocations`. */
  function OptimalSavings(a: Accounts): SubMap {
    SplitSavings(Need(a, SubKey(RainyDay)), Need(a, SubKey(Retirement)),
                 Need(a, SubKey(Hsa)), Need(a, SubKey(BigPurchases)))
  }

  /** Changing one sub-category changes the total by the same amount. */
  lemma SubSumUpdate(m: SubMap, k: Sub, v: real)
    ensures SubSum(m[k := v]) == SubSum(m) - m[k] + v
  {
  }

  /** Each rounded share stays within 2.5 of the clamped share of its need, and within `0..100`. */
  lemma RoundedSharesBounds(n0: real, n1: real, n2: real, n3: real)
    requires n0 + n1 + n2 + n3 > 0.0
    ensures var t, r := n0 + n1 + n2 + n3, RoundedShares(n0, n1, n2, n3);
      && r[RainyDay] >= 0.0 && r[Retirement] >= 0.0 && r[Hsa] >= 0.0 && r[BigPurchases] >= 0.0
      && r[RainyDay] - 2.5 <= ClampedShare(n0, t, 100.0) < r[RainyDay] + 2.5
      && r[Retirement] - 2.5 <= ClampedShare(n1, t, 100.0) < r[Retirement] + 2.5
      && r[Hsa] - 2.5 <= ClampedShare(n2, t, 100.0) < r[Hsa] + 2.5
      && r[BigPurchases] - 2.5 <= ClampedShare(n3, t, 100.0) < r[BigPurchases] + 2.5
  {
    var t := n0 + n1 + n2 + n3;
    NeedPercentRoundsShare(n0, t, 100.0);
    NeedPercentRoundsShare(n1, t, 100.0);
    NeedPercentRoundsShare(n2, t, 100.0);
    NeedPercentRoundsShare(n3, t, 100.0);
  }

  /** The four raw shares of the needs add up to 100. */
  lemma RawSharesSumTo100(n0: real, n1: real, n2: real, n3: real)
    requires n0 + n1 + n2 + n3 > 0.0
    ensures var t := n0 + n1 + n2 + n3;
      n0 / t * 100.0 + n1 / t * 100.0 + n2 / t * 100.0 + n3 / t * 100.0 == 100.0
  {
    var t := n0 + n1 + n2 + n3;
    assert n0 / t + n1 / t + n2 / t + n3 / t == t / t;
  }

  /** If a clamped share reaches 25, its rounded share does too. */
  lemma RoundedShareAtLeast25(c: real)
    requires c >= 25.0
    ensures RoundToFive(c) >= 25.0
  {
    RoundToFiveMonotone(25.0, c);
    assert RoundToFive(25.0) == 25.0;
  }

  /**
   Some rounded share reaches 25 unless one clamped share is the whole 100,
   so the rounded shares add up to something positive and the remainder
   step applies.
   */
  lemma {:induction false} RoundedSharesArePositive(n0: real, n1: real, n2: real, n3: real)
    requires n0 + n1 + n2 + n3 > 0.0
    ensures SubSum(RoundedShares(n0, n1, n2, n3)) > 0.0
  {
    var t, r := n0 + n1 + n2 + n3, RoundedShares(n0, n1, n2, n3);
    RoundedSharesBounds(n0, n1, n2, n3);
    RawSharesSumTo100(n0, n1, n2, n3);
    var c0, c1, c2, c3 := ClampedShare(n0, t, 100.0), ClampedShare(n1, t, 100.0),
                          ClampedShare(n2, t, 100.0), ClampedShare(n3, t, 100.0);
    if c0 == 100.0 || c1 == 100.0 || c2 == 100.0 || c3 == 100.0 {
      assert r[RainyDay] > 0.0 || r[Retirement] > 0.0 || r[Hsa] > 0.0 || r[BigPurchases] > 0.0;
    } else {
      assert c0 >= n0 / t * 100.0 && c1 >= n1 / t * 100.0;
      assert c2 >= n2 / t * 100.0 && c3 >= n3 / t * 100.0;
      if c0 >= 25.0 {
        RoundedShareAtLeast25(c0);
      } else if c1 >= 25.0 {
        RoundedShareAtLeast25(c1);
      } else if c2 >= 25.0 {
        RoundedShareAtLeast25(c2);
      } else {
        RoundedShareAtLeast25(c3);
      }
    }
  }

  /**
   With some need, the result is the rounded shares with only the key
   `MaxKey` picks changed, by the remainder to 100.
   */
  lemma SplitSavingsAdjustsMaxKey(n0: real, n1: real, n2: real, n3: real)
    requires n0 + n1 + n2 + n3 > 0.0
    ensures var r, rounded := SplitSavings(n0, n1, n2, n3), RoundedShares(n0, n1, n2, n3);
      var k := MaxKey(rounded);
      && (forall s :: s != k ==> s in r && s in rounded && r[s] == rounded[s])
      && k in rounded && k in r && r[k] == rounded[k] + (100.0 - SubSum(rounded))
  {
    RoundedSharesArePositive(n0, n1, n2, n3);
  }

  /** The suggested sub-percentages always add up to 100. */
  lemma SplitSavingsSumsTo100(n0: real, n1: real, n2: real, n3: real)
    ensures SubSum(SplitSavings(n0, n1, n2, n3)) == 100.0
  {
    if n0 + n1 + n2 + n3 > 0.0 {
      var m := RoundedShares(n0, n1, n2, n3);
      RoundedSharesArePositive(n0, n1, n2, n3);
      if SubSum(m) != 100.0 {
        var k := MaxKey(m);
        SubMapTotal(m);
        SubSumUpdate(m, k, m[k] + (100.0 - SubSum(m)));
      }
    }
  }

  /**
   When no sub-need is negative, no suggested sub-percentage is negative,
   the one that absorbs the remainder included: the rounded shares add up
   to at most 110 and the largest of them is at least 25.
   */
  lemma {:induction false} SplitSavingsNonNegative(n0: real, n1: real, n2: real, n3: real)
    requires n0 >= 0.0 && n1 >= 0.0 && n2 >= 0.0 && n3 >= 0.0
    ensures forall s :: s in SplitSavings(n0, n1, n2, n3) && SplitSavings(n0, n1, n2, n3)[s] >= 0.0
  {
    var t := n0 + n1 + n2 + n3;
    if t > 0.0 {
      var m := RoundedShares(n0, n1, n2, n3);
      RoundedSharesBounds(n0, n1, n2, n3);
      RawSharesSumTo100(n0, n1, n2, n3);
      // no share is negative or above 100, so none is clamped
      ShareIsUnclamped(n0, t);
      ShareIsUnclamped(n1, t);
      ShareIsUnclamped(n2, t);
      ShareIsUnclamped(n3, t);
      assert SubSum(m) <= 110.0;
      MaxKeyIsLastMaximum(m);
      var k := MaxKey(m);
      var sh0, sh1, sh2 := n0 / t * 100.0, n1 / t * 100.0, n2 / t * 100.0;
      if sh0 >= 25.0 {
        RoundedShareAtLeast25(sh0);
      } else if sh1 >= 25.0 {
        RoundedShareAtLeast25(sh1);
      } else if sh2 >= 25.0 {
        RoundedShareAtLeast25(sh2);
      } else {
        RoundedShareAtLeast25(n3 / t * 100.0);
      }
      assert m[k] + (100.0 - SubSum(m)) >= 0.0;
      SplitSavingsAdjustsMaxKey(n0, n1, n2, n3);
      var r := SplitSavings(n0, n1, n2, n3);
      forall s ensures s in r && r[s] >= 0.0 {
        if s != k {
          assert r[s] == m[s];
        }
      }
    } else {
      EvenSavingsAreQuarters();
    }
  }

  /** `EvenSavings` gives every sub-category 25. */
  lemma EvenSavingsAreQuarters()
    ensures forall s :: s in EvenSavings && EvenSavings[s] == 25.0
  {
    forall s ensures s in EvenSavings && EvenSavings[s] == 25.0 {
      match s
      case RainyDay =>
      case Retirement =>
      case Hsa =>
      case BigPurchases =>
    }
  }

  /** The share of a part of a positive whole lies within `0..100`, so clamping leaves it alone. */
  lemma ShareIsUnclamped(n: real, t: real)
    requires 0.0 <= n <= t && t > 0.0
    ensures 0.0 <= n / t * 100.0 <= 100.0
    ensures ClampedShare(n, t, 100.0) == n / t * 100.0
  {
    DivMonotone(0.0, n, t);
    DivMonotone(n, t, t);
  }

  /** With no savings need every sub-category gets 25, and the suggestion always adds up to 100. */
  lemma OptimalSavingsSpreadsSavingsNeed(a: Accounts)
    ensures OptimalSavings(a) == EvenSavings <== SavingsNeed(a) <= 0.0
    ensures SubSum(OptimalSavings(a)) == 100.0
  {
    SavingsNeedAddsAccounts(a);
    SplitSavingsSumsTo100(Need(a, SubKey(RainyDay)), Need(a, SubKey(Retirement)),
                          Need(a, SubKey(Hsa)), Need(a, SubKey(BigPurchases)));
  }

  /** With no negative spend on a savings account, no suggested sub-percentage is negative. */
  lemma OptimalSavingsNonNegative(a: Accounts)
    requires forall s: Sub :: SpendOf(a, SubKey(s)) >= 0.0
    ensures forall s :: s in OptimalSavings(a) && OptimalSavings(a)[s] >= 0.0
  {
    var n0, n1 := Need(a, SubKey(RainyDay)), Need(a, SubKey(Retirement));
    var n2, n3 := Need(a, SubKey(Hsa)), Need(a, SubKey(BigPurchases));
    NeedCoversSpend(a, SubKey(RainyDay));
    NeedCoversSpend(a, SubKey(Retirement));
    NeedCoversSpend(a, SubKey(Hsa));
    NeedCoversSpend(a, SubKey(BigPurchases));
    SplitSavingsNonNegative(n0, n1, n2, n3);
  }

  /** With all the need in the rainy-day account, it gets the whole 100. */
  lemma SplitSavingsSingleNeed(n: real)
    requires n > 0.0
    ensures SplitSavings(n, 0.0, 0.0, 0.0)
      == map[RainyDay := 100.0, Retirement := 0.0, Hsa := 0.0, BigPurchases := 0.0]
  {
    assert n / n == 1.0;
    assert ClampedShare(n, n, 100.0) == 100.0;
    assert ClampedShare(0.0, n, 100.0) == 0.0;
    RoundToFiveFixesMultiples(100.0);
    RoundToFiveFixesMultiples(0.0);
    var r := RoundedShares(n, 0.0, 0.0, 0.0);
    assert r == map[RainyDay := 100.0, Retirement := 0.0, Hsa := 0.0, BigPurchases := 0.0];
  }

  /** The sum of `m` over the first `n` keys of `ss`, as the values are added up at app.jsx:502. */
  function ValueSum(m: SubMap, ss: seq<Sub>, n: nat): real
    requires n <= |ss|
  {
    SubMapTotal(m);
    if n == 0 then 0.0 else ValueSum(m, ss, n - 1) + m[ss[n - 1]]
  }

  /** The sum over the four sub-categories in display order is `SubSum`. */
  lemma ValueSumIsSubSum(m: SubMap, ss: seq<Sub>)
    requires ss == SubOrder
    ensures ValueSum(m, ss, |ss|) == SubSum(m)
  {
    assert ValueSum(m, ss, 1) == m[RainyDay];
    assert ValueSum(m, ss, 2) == m[RainyDay] + m[Retirement];
    assert ValueSum(m, ss, 3) == m[RainyDay] + m[Retirement] + m[Hsa];
  }

  /** Two sub-maps that agree on every sub-category are equal. */
  lemma SubMapsAgree(m: SubMap, m': SubMap)
    requires m[RainyDay] == m'[RainyDay] && m[Retirement] == m'[Retirement]
    requires m[Hsa] == m'[Hsa] && m[BigPurchases] == m'[BigPurchases]
    ensures m == m'
  {
    SubMapTotal(m);
    SubMapTotal(m');
    forall s ensures m[s] == m'[s] {
      match s
      case RainyDay =>
      case Retirement =>
      case Hsa =>
      case BigPurchases =>
    }
  }

  /**
   The body of `calculateOptimalSavingsAllocations`: the need loop, the
   rounding loop, the sum of the values, and the `reduce` for the maximal key.
   */
  method CalculateOptimalSavingsAllocations(a: Accounts) returns (r: SubMap)
    ensures r == OptimalSavings(a)
  {
    var savingsNeeds, totalSavingsNeed := CollectSavingsNeeds(a);
    ghost var n0, n1 := Need(a, SubKey(RainyDay)), Need(a, SubKey(Retirement));
    ghost var n2, n3 := Need(a, SubKey(Hsa)), Need(a, SubKey(BigPurchases));

    if totalSavingsNeed > 0.0 {
      var optimal := RoundSavingsShares(savingsNeeds, totalSavingsNeed);
      ghost var rounded := RoundedShares(n0, n1, n2, n3);
      assert optimal[RainyDay] == rounded[RainyDay] && optimal[Retirement] == rounded[Retirement];
      assert optimal[Hsa] == rounded[Hsa] && optimal[BigPurchases] == rounded[BigPurchases];
      SubMapsAgree(optimal, rounded);
      r := DistributeRemainder(optimal);
    } else {
      r := EvenSplit();
    }
  }

  /** The first `forEach` of `calculateOptimalSavingsAllocations`: each sub-need and their total. */
  method CollectSavingsNeeds(a: Accounts) returns (savingsNeeds: SubMap, totalSavingsNeed: real)
    ensures forall s :: s in savingsNeeds && savingsNeeds[s] == Need(a, SubKey(s))
    ensures totalSavingsNeed == Need(a, SubKey(RainyDay)) + Need(a, SubKey(Retirement))
                                + Need(a, SubKey(Hsa)) + Need(a, SubKey(BigPurchases))
    ensures totalSavingsNeed == SavingsNeed(a)
  {
    SavingsKeysFollowSubOrder();
    SubOrderComplete();
    var needs: map<Sub, real> := map[];
    totalSavingsNeed := 0.0;
    for i := 0 to |SubOrder|
      invariant totalSavingsNeed + NeedFrom(a, SavingsKeys, i) == NeedFrom(a, SavingsKeys, 0)
      invariant forall s :: s in needs <==> s in SubOrder[..i]
      invariant forall s :: s in needs ==> needs[s] == Need(a, SubKey(s))
    {
      var key := SubOrder[i];
      assert SubOrder[..i + 1] == SubOrder[..i] + [key];
      assert SavingsKeys[i] == SubKey(key);
      var monthlyNeed := Need(a, SubKey(key));
      needs := needs[key := monthlyNeed];
      totalSavingsNeed := totalSavingsNeed + monthlyNeed;
    }
    assert SubOrder[..|SubOrder|] == SubOrder;
    SavingsNeedAddsAccounts(a);
    savingsNeeds := needs;
  }

  /** The rounding `forEach`: each sub-need's share of 100, clamped and rounded to five. */
  method RoundSavingsShares(savingsNeeds: SubMap, totalSavingsNeed: real) returns (optimal: SubMap)
    requires totalSavingsNeed > 0.0
    ensures forall s :: s in savingsNeeds && s in optimal
                        && optimal[s] == NeedPercent(savingsNeeds[s], totalSavingsNeed, 100.0)
  {
    SubOrderComplete();
    SubMapTotal(savingsNeeds);
    var shares: map<Sub, real> := map[];
    for i := 0 to |SubOrder|
      invariant forall s :: s in shares <==> s in SubOrder[..i]
      invariant forall s :: s in shares ==>
        shares[s] == NeedPercent(savingsNeeds[s], totalSavingsNeed, 100.0)
    {
      var key := SubOrder[i];
      assert SubOrder[..i + 1] == SubOrder[..i] + [key];
      shares := shares[key := NeedPercent(savingsNeeds[key], totalSavingsNeed, 100.0)];
    }
    assert SubOrder[..|SubOrder|] == SubOrder;
    optimal := shares;
  }

  /** The remainder step: the sum of the values, and the `reduce` for the maximal key. */
  method DistributeRemainder(optimal: SubMap) returns (r: SubMap)
    ensures r == AddRemainder(optimal)
  {
    r := optimal;
    var savingsSum := SumValues(optimal);
    if savingsSum != 100.0 && savingsSum > 0.0 {
      var diff := 100.0 - savingsSum;
      var maxKey := FindMaxKey(optimal);
      SubMapTotal(optimal);
      r := optimal[maxKey := optimal[maxKey] + diff];
    }
  }

  /** Adds up the four suggested values (app.jsx:502). */
  method SumValues(m: SubMap) returns (savingsSum: real)
    ensures savingsSum == SubSum(m)
  {
    SubMapTotal(m);
    savingsSum := 0.0;
    for i := 0 to |SubOrder|
      invariant savingsSum == ValueSum(m, SubOrder, i)
    {
      savingsSum := savingsSum + m[SubOrder[i]];
    }
    ValueSumIsSubSum(m, SubOrder);
  }

  /** The `reduce` that keeps the later key unless the earlier one holds strictly more. */
  method FindMaxKey(m: SubMap) returns (maxKey: Sub)
    ensures maxKey == MaxKey(m)
  {
    SubMapTotal(m);
    maxKey := SubOrder[0];
    for i := 1 to |SubOrder|
      invariant maxKey == MaxKeyOf(m, SubOrder, i)
    {
      if !(m[maxKey] > m[SubOrder[i]]) {
        maxKey := SubOrder[i];
      }
    }
  }

  /** The zero-need `forEach`: 25 for every sub-category. */
  method EvenSplit() returns (r: SubMap)
    ensures r == EvenSavings
  {
    SubOrderComplete();
    var shares: map<Sub, real> := map[];
    for i := 0 to |SubOrder|
      invariant forall s :: s in shares <==> s in SubOrder[..i]
      invariant forall s :: s in shares ==> shares[s] == 25.0
    {
      assert SubOrder[..i + 1] == SubOrder[..i] + [SubOrder[i]];
      shares := shares[SubOrder[i] := 25.0];
    }
    assert SubOrder[..|SubOrder|] == SubOrder;
    r := shares;
  }
}
