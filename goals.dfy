/**
 Goal tracking: months until an account reaches its goal at the current
 contribution rate, the list of active goals shown on the dashboard, and
 the overall goal summary.
 */
module Goals {
  import opened Wrappers
  import opened Categories
  import opened Income
  import opened JsMath

  /**
   The `calculateMonthsToGoal` result: `null` is `Unknown`, `{months: 0}` is
   `Done`, `{months: Infinity}` is `OverBudget`.
   */
  datatype GoalEta = Unknown | Done | OverBudget | Finite(months: int)

  /**
   The monthly amount the percentages route to account `k`: its main share,
   or for a savings sub-account its share of the savings share.
   */
  function Contribution(k: Key, income: real, mp: MainMap, sp: SubMap): real {
    MainMapTotal(mp);
    SubMapTotal(sp);
    match k
    case SubKey(s) => income * (mp[Savings] / 100.0) * (sp[s] / 100.0)
    case MainKey(m) => income * (mp[m] / 100.0)
  }

  /** What is still missing to reach the goal. */
  function Gap(acct: Account): real {
    acct.goal - acct.balance
  }

  /** An account that goal tracking has something to say about. */
  predicate Tracked(a: Accounts, k: Key, s: IncomeSettings) {
    k in a && a[k].goal > 0.0 && PlanningIncome(s).Some? && IsAccount(k)
  }

  /** Contribution less the account's own monthly spend. */
  function NetMonthly(a: Accounts, k: Key, s: IncomeSettings, mp: MainMap, sp: SubMap): real
    requires Tracked(a, k, s)
  {
    Contribution(k, PlanningIncome(s).value, mp, sp) - a[k].monthlySpend
  }

  /**
   `calculateMonthsToGoal(key, isSavings)`, where `isSavings` is whether the
   key is a savings sub-category (as every caller passes it).
   */
  function MonthsToGoal(a: Accounts, k: Key, s: IncomeSettings, mp: MainMap, sp: SubMap): (r: GoalEta)
    ensures r.Unknown? <==> !Tracked(a, k, s)
    ensures Tracked(a, k, s) ==> (r.Done? <==> Gap(a[k]) <= 0.0)
    ensures Tracked(a, k, s) && Gap(a[k]) > 0.0 ==>
      (r.OverBudget? <==> NetMonthly(a, k, s, mp, sp) <= 0.0)
    ensures r.Finite? ==>
      var net := NetMonthly(a, k, s, mp, sp);
      && r.months >= 1
      && r.months as real * net >= Gap(a[k])
      && (r.months - 1) as real * net < Gap(a[k])
  {
    if k !in a || a[k].goal <= 0.0 then Unknown
    else match PlanningIncome(s)
      case None => Unknown
      case Some(monthlyIncome) =>
        if k == MainKey(Savings) then Unknown
        else
          var netMonthly := Contribution(k, monthlyIncome, mp, sp) - a[k].monthlySpend;
          var gap := Gap(a[k]);
          if gap <= 0.0 then Done
          else if netMonthly <= 0.0 then OverBudget
          else
            CeilQuotient(gap, netMonthly);
            Finite(Ceil(gap / netMonthly))
  }

  /** A goal already reached reads as done whatever the percentages and the income. */
  lemma DoneRegardlessOfRate(a: Accounts, k: Key, s: IncomeSettings, mp: MainMap, sp: SubMap,
                             s': IncomeSettings, mp': MainMap, sp': SubMap)
    requires MonthsToGoal(a, k, s, mp, sp).Done? && PlanningIncome(s').Some?
    ensures MonthsToGoal(a, k, s', mp', sp').Done?
  {
  }

  /** A bigger balance never makes the goal further away. */
  lemma {:induction false} MonthsShrinkAsBalanceGrows(a: Accounts, k: Key, s: IncomeSettings,
                                                     mp: MainMap, sp: SubMap, extra: real)
    requires k in a && extra >= 0.0
    ensures var before := MonthsToGoal(a, k, s, mp, sp);
      var after := MonthsToGoal(a[k := a[k].(balance := a[k].balance + extra)], k, s, mp, sp);
      && (before.Unknown? <==> after.Unknown?)
      && (before.Done? ==> after.Done?)
      && (before.OverBudget? ==> after.Done? || after.OverBudget?)
      && (before.Finite? ==> after.Done? || (after.Finite? && after.months <= before.months))
  {
    var a' := a[k := a[k].(balance := a[k].balance + extra)];
    var before := MonthsToGoal(a, k, s, mp, sp);
    var after := MonthsToGoal(a', k, s, mp, sp);
    if before.Finite? && after.Finite? {
      var net := NetMonthly(a, k, s, mp, sp);
      assert net == NetMonthly(a', k, s, mp, sp);
      assert Gap(a'[k]) <= Gap(a[k]);
      var g, g' := Gap(a[k]), Gap(a'[k]);
      DivMonotone(g', g, net);
      CeilMonotone(g' / net, g / net);
    }
  }

  /** `Math.ceil` never reverses the order of two values. */
  lemma CeilMonotone(x: real, y: real)
    requires x <= y
    ensures Ceil(x) <= Ceil(y)
  {
    assert Ceil(x) as real < x + 1.0 <= y + 1.0 <= Ceil(y) as real + 1.0;
  }

  /** The worked examples: a goal matched by the balance, and a goal with no contribution. */
  lemma MonthsToGoalExamples(s: IncomeSettings, mp: MainMap, sp: SubMap)
    requires PlanningIncome(s).Some?
    ensures MonthsToGoal(map[MainKey(Fixed) := Account(1200.0, 1200.0, 0.0)],
                         MainKey(Fixed), s, mp, sp) == Done
    ensures mp[Fixed] == 0.0 ==>
      MonthsToGoal(map[MainKey(Fixed) := Account(0.0, 1200.0, 0.0)],
                   MainKey(Fixed), s, mp, sp) == OverBudget
  {
  }

  // ---------------------------------------------------------------------
  // Active goals

  /** One row of `getActiveGoals` (its display name left out). */
  datatype GoalEntry = GoalEntry(
    key: Key,
    balance: real,
    goal: real,
    remaining: real,
    progress: real,
    monthsInfo: GoalEta)

  /** Fixed and Flexible, then the savings sub-categories in display order. */
  const GoalKeys: seq<Key> :=
    [MainKey(Fixed), MainKey(Flexible),
     SubKey(RainyDay), SubKey(Retirement), SubKey(Hsa), SubKey(BigPurchases)]

  /** The position of a key in the order in which goals are collected. */
  function Rank(k: Key): nat {
    match k
    case MainKey(Fixed) => 0
    case MainKey(Flexible) => 1
    case SubKey(RainyDay) => 2
    case SubKey(Retirement) => 3
    case SubKey(Hsa) => 4
    case SubKey(BigPurchases) => 5
    case MainKey(Savings) => 6
    case MainKey(Charity) => 7
  }

  /** Percent of the goal already saved. */
  function Progress(acct: Account): real
    requires acct.goal > 0.0
  {
    (acct.balance / acct.goal) * 100.0
  }

  /** An account with a goal that is not yet reached. */
  predicate Unmet(a: Accounts, k: Key) {
    k in a && a[k].goal > 0.0 && Progress(a[k]) < 100.0
  }

  /** Progress below 100 is a balance below the goal. */
  lemma UnmetMeansBelowGoal(acct: Account)
    requires acct.goal > 0.0
    ensures Progress(acct) < 100.0 <==> acct.balance < acct.goal
  {
    var q := acct.balance / acct.goal;
    assert q * acct.goal == acct.balance;
    if q < 1.0 {
      MulMonotone(q, 1.0, acct.goal);
    } else {
      MulMonotone(1.0, q, acct.goal);
    }
  }

  function EntryFor(a: Accounts, k: Key, s: IncomeSettings, mp: MainMap, sp: SubMap): GoalEntry
    requires k in a && a[k].goal > 0.0
  {
    GoalEntry(k, a[k].balance, a[k].goal, a[k].goal - a[k].balance, Progress(a[k]),
              MonthsToGoal(a, k, s, mp, sp))
  }

  /** The unmet goals among `ks`, in the order of `ks`. */
  function Candidates(a: Accounts, ks: seq<Key>, s: IncomeSettings, mp: MainMap, sp: SubMap)
    : seq<GoalEntry>
    decreases |ks|
  {
    if ks == [] then []
    else
      var rest := Candidates(a, ks[..|ks| - 1], s, mp, sp);
      var k := ks[|ks| - 1];
      if Unmet(a, k) then rest + [EntryFor(a, k, s, mp, sp)] else rest
  }

  /** Every candidate is an unmet goal of a key of `ks`, and every unmet goal of `ks` is a candidate. */
  lemma {:induction false} CandidatesAreUnmetGoals(a: Accounts, ks: seq<Key>, s: IncomeSettings,
                                                  mp: MainMap, sp: SubMap)
    ensures forall e :: e in Candidates(a, ks, s, mp, sp) ==>
      && e.key in ks && Unmet(a, e.key) && e == EntryFor(a, e.key, s, mp, sp)
    ensures forall k :: k in ks && Unmet(a, k) ==> EntryFor(a, k, s, mp, sp) in Candidates(a, ks, s, mp, sp)
  {
    if ks != [] {
      var init := ks[..|ks| - 1];
      CandidatesAreUnmetGoals(a, init, s, mp, sp);
      assert ks == init + [ks[|ks| - 1]];
    }
  }

  /** Keys of strictly increasing rank: the order candidates are collected in. */
  predicate RanksIncrease(s: seq<GoalEntry>) {
    forall i, j :: 0 <= i < j < |s| ==> Rank(s[i].key) < Rank(s[j].key)
  }

  /** Candidates drawn from keys of increasing rank come out in increasing rank. */
  lemma {:induction false} CandidatesRanksIncrease(a: Accounts, ks: seq<Key>, s: IncomeSettings,
                                                  mp: MainMap, sp: SubMap)
    requires forall i, j :: 0 <= i < j < |ks| ==> Rank(ks[i]) < Rank(ks[j])
    ensures RanksIncrease(Candidates(a, ks, s, mp, sp))
  {
    if ks != [] {
      var init := ks[..|ks| - 1];
      CandidatesRanksIncrease(a, init, s, mp, sp);
      CandidatesAreUnmetGoals(a, init, s, mp, sp);
      var rest := Candidates(a, init, s, mp, sp);
      forall e | e in rest ensures Rank(e.key) < Rank(ks[|ks| - 1]) {
        var i :| 0 <= i < |init| && init[i] == e.key;
      }
    }
  }

  /**
   The order of the dashboard: higher progress first, and for equal
   progress the earlier key first (the sort is stable).
   */
  predicate Before(x: GoalEntry, y: GoalEntry) {
    x.progress > y.progress || (x.progress == y.progress && Rank(x.key) < Rank(y.key))
  }

  predicate SortedByProgress(s: seq<GoalEntry>) {
    forall i, j :: 0 <= i < j < |s| ==> Before(s[i], s[j])
  }

  /** Insert `x` after every entry whose progress is at least its own. */
  function Insert(x: GoalEntry, s: seq<GoalEntry>): seq<GoalEntry> {
    if s == [] then [x]
    else if s[0].progress < x.progress then [x] + s
    else [s[0]] + Insert(x, s[1..])
  }

  /**
   The sort by non-increasing progress at app.jsx:319. JavaScript's sort is
   stable, which insertion of each entry in turn reproduces.
   */
  function SortByProgress(s: seq<GoalEntry>): seq<GoalEntry> {
    if s == [] then [] else Insert(s[|s| - 1], SortByProgress(s[..|s| - 1]))
  }

  /** Insertion adds `x` and keeps everything else. */
  lemma {:induction false} InsertPermutes(x: GoalEntry, s: seq<GoalEntry>)
    ensures multiset(Insert(x, s)) == multiset(s) + multiset{x}
  {
    if s != [] && s[0].progress >= x.progress {
      InsertPermutes(x, s[1..]);
      assert s == [s[0]] + s[1..];
    }
  }

  /** The tail of a sorted sequence is sorted, and its head comes before all of it. */
  lemma SortedTail(s: seq<GoalEntry>)
    requires SortedByProgress(s) && s != []
    ensures SortedByProgress(s[1..])
    ensures forall e :: e in s[1..] ==> Before(s[0], e)
  {
    var tail := s[1..];
    forall i, j | 0 <= i < j < |tail| ensures Before(tail[i], tail[j]) {
      assert Before(s[i + 1], s[j + 1]);
    }
    forall e | e in tail ensures Before(s[0], e) {
      var j :| 0 <= j < |tail| && tail[j] == e;
      assert Before(s[0], s[j + 1]);
    }
  }

  /** An entry that comes before all of a sorted sequence can be put in front of it. */
  lemma ConsSorted(y: GoalEntry, r: seq<GoalEntry>)
    requires SortedByProgress(r)
    requires forall e :: e in r ==> Before(y, e)
    ensures SortedByProgress([y] + r)
  {
    var t := [y] + r;
    forall i, j | 0 <= i < j < |t| ensures Before(t[i], t[j]) {
      assert t[j] == r[j - 1];
      if i == 0 {
        assert r[j - 1] in r;
      } else {
        assert t[i] == r[i - 1];
      }
    }
  }

  /** Inserting an entry of a later key than all of a sorted sequence keeps it sorted. */
  lemma {:induction false} InsertKeepsOrder(x: GoalEntry, s: seq<GoalEntry>)
    requires SortedByProgress(s)
    requires forall e :: e in s ==> Rank(e.key) < Rank(x.key)
    ensures SortedByProgress(Insert(x, s))
  {
    if s == [] {
    } else if s[0].progress < x.progress {
      SortedTail(s);
      forall e | e in s ensures Before(x, e) {
        if e != s[0] {
          assert e in s[1..] by { assert s == [s[0]] + s[1..]; }
        }
      }
      ConsSorted(x, s);
    } else {
      var tail := s[1..];
      assert forall e :: e in tail ==> e in s;
      SortedTail(s);
      InsertKeepsOrder(x, tail);
      InsertPermutes(x, tail);
      var r := Insert(x, tail);
      assert Before(s[0], x) by { assert s[0] in s; }
      forall e | e in r ensures Before(s[0], e) {
        assert e in multiset(r);
      }
      ConsSorted(s[0], r);
    }
  }

  /** The sort only permutes its input. */
  lemma {:induction false} SortPermutes(s: seq<GoalEntry>)
    ensures multiset(SortByProgress(s)) == multiset(s)
  {
    if s != [] {
      var init, x := s[..|s| - 1], s[|s| - 1];
      var sorted := SortByProgress(init);
      assert SortByProgress(s) == Insert(x, sorted);
      SortPermutes(init);
      InsertPermutes(x, sorted);
      assert s == init + [x];
      assert multiset(s) == multiset(init) + multiset{x};
    }
  }

  /** The sort puts entries of increasing rank in dashboard order, and only permutes them. */
  lemma {:induction false} SortByProgressSorts(s: seq<GoalEntry>)
    requires RanksIncrease(s)
    ensures SortedByProgress(SortByProgress(s))
    ensures multiset(SortByProgress(s)) == multiset(s)
  {
    SortPermutes(s);
    if s != [] {
      var init := s[..|s| - 1];
      var x := s[|s| - 1];
      assert RanksIncrease(init);
      SortByProgressSorts(init);
      var sorted := SortByProgress(init);
      forall e | e in sorted ensures Rank(e.key) < Rank(x.key) {
        assert e in multiset(sorted);
        var i :| 0 <= i < |init| && init[i] == e;
      }
      InsertKeepsOrder(x, sorted);
    }
  }

  /** `getActiveGoals`: unmet goals, best progress first, at most four. */
  function ActiveGoals(a: Accounts, s: IncomeSettings, mp: MainMap, sp: SubMap): seq<GoalEntry> {
    var sorted := SortByProgress(Candidates(a, GoalKeys, s, mp, sp));
    if |sorted| <= 4 then sorted else sorted[..4]
  }

  /** `e` is the dashboard entry of an account with an unmet goal. */
  predicate IsUnmetGoalEntry(a: Accounts, e: GoalEntry, s: IncomeSettings, mp: MainMap, sp: SubMap) {
    && e.key in GoalKeys && e.key in a && a[e.key].goal > 0.0
    && e == EntryFor(a, e.key, s, mp, sp) && e.balance < e.goal && e.progress < 100.0
  }

  /** The sorted candidates: in dashboard order, exactly the unmet goals. */
  lemma SortedCandidatesAreUnmetGoals(a: Accounts, s: IncomeSettings, mp: MainMap, sp: SubMap)
    ensures var sorted := SortByProgress(Candidates(a, GoalKeys, s, mp, sp));
      && SortedByProgress(sorted)
      && (forall e :: e in sorted ==> IsUnmetGoalEntry(a, e, s, mp, sp))
      && (forall k :: k in GoalKeys && Unmet(a, k) ==> EntryFor(a, k, s, mp, sp) in sorted)
  {
    var cands := Candidates(a, GoalKeys, s, mp, sp);
    CandidatesAreUnmetGoals(a, GoalKeys, s, mp, sp);
    CandidatesRanksIncrease(a, GoalKeys, s, mp, sp);
    SortByProgressSorts(cands);
    var sorted := SortByProgress(cands);
    forall e | e in sorted ensures IsUnmetGoalEntry(a, e, s, mp, sp) {
      assert e in multiset(sorted);
      assert e in cands;
      UnmetMeansBelowGoal(a[e.key]);
    }
    forall k | k in GoalKeys && Unmet(a, k) ensures EntryFor(a, k, s, mp, sp) in sorted {
      assert EntryFor(a, k, s, mp, sp) in multiset(cands);
    }
  }

  /** The active goals are at most four unmet goals, each the entry of its account, in dashboard order. */
  lemma ActiveGoalsAreUnmetGoals(a: Accounts, s: IncomeSettings, mp: MainMap, sp: SubMap)
    ensures var r := ActiveGoals(a, s, mp, sp);
      && |r| <= 4
      && SortedByProgress(r)
      && (forall e :: e in r ==> IsUnmetGoalEntry(a, e, s, mp, sp))
  {
    SortedCandidatesAreUnmetGoals(a, s, mp, sp);
    var sorted := SortByProgress(Candidates(a, GoalKeys, s, mp, sp));
    var r := ActiveGoals(a, s, mp, sp);
    forall e | e in r ensures e in sorted {
      var i :| 0 <= i < |r| && r[i] == e;
      assert sorted[i] == e;
    }
  }

  /**
   An unmet goal is left off the dashboard only when four goals at least as
   far along are shown instead.
   */
  lemma ActiveGoalsOmitOnlyBehindFour(a: Accounts, s: IncomeSettings, mp: MainMap, sp: SubMap, k: Key)
    requires k in GoalKeys && Unmet(a, k)
    requires forall e :: e in ActiveGoals(a, s, mp, sp) ==> e.key != k
    ensures |ActiveGoals(a, s, mp, sp)| == 4
    ensures forall e :: e in ActiveGoals(a, s, mp, sp) ==> e.progress >= Progress(a[k])
  {
    SortedCandidatesAreUnmetGoals(a, s, mp, sp);
    var sorted := SortByProgress(Candidates(a, GoalKeys, s, mp, sp));
    var r := ActiveGoals(a, s, mp, sp);
    var x := EntryFor(a, k, s, mp, sp);
    var j :| 0 <= j < |sorted| && sorted[j] == x;
    if j < 4 {
      assert false;
    }
    forall e | e in r ensures e.progress >= Progress(a[k]) {
      var i :| 0 <= i < |r| && r[i] == e;
      assert Before(sorted[i], sorted[j]);
    }
  }

  /**
   `getActiveGoals`: the collecting loops over Fixed and Flexible and then
   over the savings sub-categories, the sort, and `slice(0, 4)`.
   */
  method GetActiveGoals(a: Accounts, s: IncomeSettings, mp: MainMap, sp: SubMap)
    returns (goals: seq<GoalEntry>)
    ensures goals == ActiveGoals(a, s, mp, sp)
  {
    var mainKeys := [MainKey(Fixed), MainKey(Flexible)];
    var savingsKeys := [SubKey(RainyDay), SubKey(Retirement), SubKey(Hsa), SubKey(BigPurchases)];
    var active := PushUnmetGoals([], [], mainKeys, a, s, mp, sp);
    active := PushUnmetGoals(active, mainKeys, savingsKeys, a, s, mp, sp);
    assert mainKeys + savingsKeys == GoalKeys;
    var sorted := SortByProgress(active);
    goals := if |sorted| <= 4 then sorted else sorted[..4];
  }

  /**
   One collecting loop of `getActiveGoals`: after the keys `done`, push the
   entry of each key of `ks` whose account has an unmet goal.
   */
  method PushUnmetGoals(active0: seq<GoalEntry>, done: seq<Key>, ks: seq<Key>,
                        a: Accounts, s: IncomeSettings, mp: MainMap, sp: SubMap)
    returns (active: seq<GoalEntry>)
    requires active0 == Candidates(a, done, s, mp, sp)
    ensures active == Candidates(a, done + ks, s, mp, sp)
  {
    active := active0;
    assert done + ks[..0] == done;
    for i := 0 to |ks|
      invariant active == Candidates(a, done + ks[..i], s, mp, sp)
    {
      var key := ks[i];
      assert (done + ks[..i + 1])[..|done| + i] == done + ks[..i];
      assert (done + ks[..i + 1])[|done| + i] == key;
      if key in a && a[key].goal > 0.0 {
        var progress := (a[key].balance / a[key].goal) * 100.0;
        if progress < 100.0 {
          var monthsInfo := MonthsToGoal(a, key, s, mp, sp);
          active := active + [GoalEntry(key, a[key].balance, a[key].goal,
                                        a[key].goal - a[key].balance, progress, monthsInfo)];
        }
      }
    }
    assert ks[..|ks|] == ks;
  }

  // ---------------------------------------------------------------------
  // Goal summary

  /** The `getGoalSummary` object. */
  datatype GoalSummary = GoalSummary(totalGoal: real, totalBalance: real, progress: real)

  /** Goals of the accounts `ks`, a missing account counting as 0. */
  function GoalTotal(a: Accounts, ks: seq<Key>): real
    decreases |ks|
  {
    if ks == [] then 0.0 else GoalTotal(a, ks[..|ks| - 1]) + GoalOf(a, ks[|ks| - 1])
  }

  /** Balances of the accounts `ks`, a missing account counting as 0. */
  function BalanceTotal(a: Accounts, ks: seq<Key>): real
    decreases |ks|
  {
    if ks == [] then 0.0 else BalanceTotal(a, ks[..|ks| - 1]) + BalanceOf(a, ks[|ks| - 1])
  }

  /** `getGoalSummary`: total goal and balance of the six goal accounts, and overall progress. */
  function Summary(a: Accounts): GoalSummary {
    var totalGoal := GoalTotal(a, GoalKeys);
    var totalBalance := BalanceTotal(a, GoalKeys);
    GoalSummary(totalGoal, totalBalance,
                if totalGoal > 0.0 then (totalBalance / totalGoal) * 100.0 else 0.0)
  }

  /**
   The summary adds up Fixed, Flexible and the four savings sub-accounts
   (Charity is not among them), and its progress is the saved share of the
   total goal in percent.
   */
  lemma SummaryAddsGoalAccounts(a: Accounts)
    ensures var r := Summary(a);
      && r.totalGoal == GoalOf(a, MainKey(Fixed)) + GoalOf(a, MainKey(Flexible))
           + GoalOf(a, SubKey(RainyDay)) + GoalOf(a, SubKey(Retirement))
           + GoalOf(a, SubKey(Hsa)) + GoalOf(a, SubKey(BigPurchases))
      && r.totalBalance == BalanceOf(a, MainKey(Fixed)) + BalanceOf(a, MainKey(Flexible))
           + BalanceOf(a, SubKey(RainyDay)) + BalanceOf(a, SubKey(Retirement))
           + BalanceOf(a, SubKey(Hsa)) + BalanceOf(a, SubKey(BigPurchases))
      && (r.totalGoal > 0.0 ==> r.progress * r.totalGoal == r.totalBalance * 100.0)
      && (r.totalGoal <= 0.0 ==> r.progress == 0.0)
  {
    var ks := GoalKeys;
    assert ks[..6] == ks;
    assert ks[..6][..5] == ks[..5];
    assert ks[..5][..4] == ks[..4];
    assert ks[..4][..3] == ks[..3];
    assert ks[..3][..2] == ks[..2];
    assert ks[..2][..1] == ks[..1];
    assert ks[..1][..0] == [];
    assert GoalTotal(a, ks[..1]) == GoalOf(a, ks[0]);
    assert GoalTotal(a, ks[..2]) == GoalTotal(a, ks[..1]) + GoalOf(a, ks[1]);
    assert GoalTotal(a, ks[..3]) == GoalTotal(a, ks[..2]) + GoalOf(a, ks[2]);
    assert GoalTotal(a, ks[..4]) == GoalTotal(a, ks[..3]) + GoalOf(a, ks[3]);
    assert GoalTotal(a, ks[..5]) == GoalTotal(a, ks[..4]) + GoalOf(a, ks[4]);
    assert GoalTotal(a, ks) == GoalTotal(a, ks[..5]) + GoalOf(a, ks[5]);
    assert BalanceTotal(a, ks[..1]) == BalanceOf(a, ks[0]);
    assert BalanceTotal(a, ks[..2]) == BalanceTotal(a, ks[..1]) + BalanceOf(a, ks[1]);
    assert BalanceTotal(a, ks[..3]) == BalanceTotal(a, ks[..2]) + BalanceOf(a, ks[2]);
    assert BalanceTotal(a, ks[..4]) == BalanceTotal(a, ks[..3]) + BalanceOf(a, ks[3]);
    assert BalanceTotal(a, ks[..5]) == BalanceTotal(a, ks[..4]) + BalanceOf(a, ks[4]);
    assert BalanceTotal(a, ks) == BalanceTotal(a, ks[..5]) + BalanceOf(a, ks[5]);
    var r := Summary(a);
    if r.totalGoal > 0.0 {
      assert r.totalBalance / r.totalGoal * r.totalGoal == r.totalBalance;
    }
  }

  /** The two `forEach` loops of `getGoalSummary` with their `+=` totals. */
  method GetGoalSummary(a: Accounts) returns (r: GoalSummary)
    ensures r == Summary(a)
  {
    var totalGoal := 0.0;
    var totalBalance := 0.0;
    var mainKeys := [MainKey(Fixed), MainKey(Flexible)];
    for i := 0 to |mainKeys|
      invariant totalGoal == GoalTotal(a, GoalKeys[..i])
      invariant totalBalance == BalanceTotal(a, GoalKeys[..i])
    {
      assert GoalKeys[..i + 1][..i] == GoalKeys[..i];
      totalGoal := totalGoal + GoalOf(a, mainKeys[i]);
      totalBalance := totalBalance + BalanceOf(a, mainKeys[i]);
    }
    for j := 0 to |SubOrder|
      invariant totalGoal == GoalTotal(a, GoalKeys[..2 + j])
      invariant totalBalance == BalanceTotal(a, GoalKeys[..2 + j])
    {
      assert GoalKeys[..3 + j][..2 + j] == GoalKeys[..2 + j];
      totalGoal := totalGoal + GoalOf(a, SubKey(SubOrder[j]));
      totalBalance := totalBalance + BalanceOf(a, SubKey(SubOrder[j]));
    }
    assert GoalKeys[..6] == GoalKeys;
    r := GoalSummary(totalGoal, totalBalance,
                     if totalGoal > 0.0 then (totalBalance / totalGoal) * 100.0 else 0.0);
  }
}
