/** The usual optional-value wrapper, standing for JavaScript's `null`. */
module Wrappers {
  datatype Option<T> = None | Some(value: T)
}

/**
 The category model of the budget calculator: the four main categories, the
 four savings sub-categories, the seven account records, the percentage
 vectors and the constants and initial values of the component.
 */
module Categories {

  /** The main categories, in the component's display and iteration order. */
  datatype Main = Fixed | Flexible | Savings | Charity

  /** The sub-categories of the savings share. */
  datatype Sub = RainyDay | Retirement | Hsa | BigPurchases

  /** A key of the accounts record: a main category or a savings sub-category. */
  datatype Key = MainKey(main: Main) | SubKey(sub: Sub)

  const MainOrder: seq<Main> := [Fixed, Flexible, Savings, Charity]
  const SubOrder: seq<Sub> := [RainyDay, Retirement, Hsa, BigPurchases]

  /** The flat tax withheld from an income marked as tax-deducted. */
  const TaxRate: real := 0.33
  /** The charity share the optimizer never goes below. */
  const MinCharityPercent: real := 10.0

  /** One account record `{balance, goal, monthlySpend}`. */
  datatype Account = Account(balance: real, goal: real, monthlySpend: real)

  const ZeroAccount: Account := Account(0.0, 0.0, 0.0)

  type Accounts = map<Key, Account>

  /** Savings itself has no account; every other key names one of the seven. */
  predicate IsAccount(k: Key) {
    k != MainKey(Savings)
  }

  /** All seven account records are present. */
  predicate HasAllAccounts(a: Accounts) {
    && MainKey(Fixed) in a && MainKey(Flexible) in a && MainKey(Charity) in a
    && SubKey(RainyDay) in a && SubKey(Retirement) in a
    && SubKey(Hsa) in a && SubKey(BigPurchases) in a
  }

  /** With all seven records present, every account key is found. */
  lemma AccountPresent(a: Accounts, k: Key)
    requires HasAllAccounts(a) && IsAccount(k)
    ensures k in a
  {
    match k
    case MainKey(m) => assert m != Savings;
    case SubKey(s) => match s { case RainyDay => case Retirement => case Hsa => case BigPurchases => }
  }

  /** The balance of account `k`; a missing account reads as zero. */
  function BalanceOf(a: Accounts, k: Key): real {
    if k in a then a[k].balance else 0.0
  }

  /** The goal of account `k`, zero when the account is missing. */
  function GoalOf(a: Accounts, k: Key): real {
    if k in a then a[k].goal else 0.0
  }

  /** The monthly spend of account `k`, zero when the account is missing. */
  function SpendOf(a: Accounts, k: Key): real {
    if k in a then a[k].monthlySpend else 0.0
  }

  /** `m` has an entry for each main category. */
  predicate IsMainMap(m: map<Main, real>) {
    Fixed in m && Flexible in m && Savings in m && Charity in m
  }

  /** `m` has an entry for each savings sub-category. */
  predicate IsSubMap(m: map<Sub, real>) {
    RainyDay in m && Retirement in m && Hsa in m && BigPurchases in m
  }

  /** A percentage (or amount) for each main category. */
  type MainMap = m: map<Main, real> | IsMainMap(m)
    witness map[Fixed := 0.0, Flexible := 0.0, Savings := 0.0, Charity := 0.0]

  /** A percentage (or amount) for each savings sub-category. */
  type SubMap = m: map<Sub, real> | IsSubMap(m)
    witness map[RainyDay := 0.0, Retirement := 0.0, Hsa := 0.0, BigPurchases := 0.0]

  /** `mainTotal`: the sum of the four main values. */
  function MainSum(m: MainMap): real {
    m[Fixed] + m[Flexible] + m[Savings] + m[Charity]
  }

  /** `savingsTotal`: the sum of the four sub-category values. */
  function SubSum(m: SubMap): real {
    m[RainyDay] + m[Retirement] + m[Hsa] + m[BigPurchases]
  }

  /** The default main percentages, restored by "Reset to Defaults". */
  const DefaultMain: MainMap :=
    map[Fixed := 50.0, Savings := 25.0, Flexible := 15.0, Charity := 10.0]

  /** The default savings percentages, restored by "Reset to Defaults". */
  const DefaultSub: SubMap :=
    map[RainyDay := 40.0, Retirement := 30.0, Hsa := 15.0, BigPurchases := 15.0]

  /** The seven accounts, all zero: the initial state and the state after clear-all. */
  const ZeroAccounts: Accounts :=
    map[MainKey(Fixed) := ZeroAccount, MainKey(Flexible) := ZeroAccount,
        MainKey(Charity) := ZeroAccount, SubKey(RainyDay) := ZeroAccount,
        SubKey(Retirement) := ZeroAccount, SubKey(Hsa) := ZeroAccount,
        SubKey(BigPurchases) := ZeroAccount]

  /** Both default vectors total 100, and the zero accounts are exactly the seven. */
  lemma DefaultsAreWellFormed()
    ensures MainSum(DefaultMain) == 100.0 && SubSum(DefaultSub) == 100.0
    ensures HasAllAccounts(ZeroAccounts)
    ensures forall k :: k in ZeroAccounts ==> IsAccount(k)
    ensures forall k :: k in ZeroAccounts ==> ZeroAccounts[k] == ZeroAccount
  {
  }

  /** Every main category appears in the iteration order, exactly once. */
  lemma MainOrderComplete()
    ensures forall c: Main :: c in MainOrder
  {
    forall c: Main ensures c in MainOrder {
      match c
      case Fixed =>
      case Flexible =>
      case Savings =>
      case Charity =>
    }
  }

  /** A main map holds every main category. */
  lemma MainMapTotal(m: MainMap)
    ensures forall c: Main :: c in m
  {
    forall c: Main ensures c in m {
      match c
      case Fixed =>
      case Flexible =>
      case Savings =>
      case Charity =>
    }
  }

  /** A sub map holds every sub-category. */
  lemma SubMapTotal(m: SubMap)
    ensures forall s: Sub :: s in m
  {
    forall s: Sub ensures s in m {
      match s
      case RainyDay =>
      case Retirement =>
      case Hsa =>
      case BigPurchases =>
    }
  }

  /** Every sub-category appears in the iteration order, exactly once. */
  lemma SubOrderComplete()
    ensures forall s: Sub :: s in SubOrder
  {
    forall s: Sub ensures s in SubOrder {
      match s
      case RainyDay =>
      case Retirement =>
      case Hsa =>
      case BigPurchases =>
    }
  }

  function Max(x: real, y: real): (r: real)
    ensures r >= x && r >= y && (r == x || r == y)
  {
    if x >= y then x else y
  }

  function Min(x: real, y: real): (r: real)
    ensures r <= x && r <= y && (r == x || r == y)
  {
    if x <= y then x else y
  }
}
