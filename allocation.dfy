/**
 The allocation engine: withhold the flat tax when asked, split the net
 amount across the main categories by percentage, then split the savings
 share across the savings sub-categories.
 */
module Allocation {
  import opened Wrappers
  import opened Categories

  /**
   The object `calculateAllocations` returns: `{main, savings, taxWithheld, netAmount}`.
   For a non-positive amount the two breakdowns are empty and `netAmount`
   is absent.
   */
  datatype Allocation = Allocation(
    main: map<Main, real>,
    savings: map<Sub, real>,
    taxWithheld: real,
    netAmount: Option<real>)

  /** An empty allocation with no tax withheld and no net amount (app.jsx:344). */
  const NoAllocation: Allocation := Allocation(map[], map[], 0.0, None)

  /** `pct` percent of `total`. */
  function Share(total: real, pct: real): real {
    total * pct / 100.0
  }

  /** The allocation of `amount` under the percentages `mp` and `sp`. */
  function Allocate(amount: real, withTax: bool, mp: MainMap, sp: SubMap): (r: Allocation)
    ensures amount <= 0.0 ==> r == NoAllocation
    ensures amount > 0.0 ==>
      && r.netAmount.Some?
      && r.netAmount.value + r.taxWithheld == amount
      && r.taxWithheld == (if withTax then TaxRate * amount else 0.0)
    ensures amount > 0.0 ==>
      && IsMainMap(r.main) && IsSubMap(r.savings)
      && (forall c :: c in mp ==> c in r.main && r.main[c] == r.netAmount.value * mp[c] / 100.0)
      && (forall s :: s in sp ==> s in r.savings && r.savings[s] == r.main[Savings] * sp[s] / 100.0)
      && MainSum(r.main) == r.netAmount.value * MainSum(mp) / 100.0
      && SubSum(r.savings) == r.main[Savings] * SubSum(sp) / 100.0
  {
    if amount <= 0.0 then NoAllocation
    else
      var net := if withTax then amount * (1.0 - TaxRate) else amount;
      var tax := if withTax then amount * TaxRate else 0.0;
      var main := MainShares(net, mp);
      Allocation(main, SubShares(main[Savings], sp), tax, Some(net))
  }

  /** `main`: each main category's percentage of the net amount. */
  function MainShares(net: real, mp: MainMap): (main: MainMap)
    ensures forall c :: c in mp && c in main && main[c] == Share(net, mp[c])
  {
    MainMapTotal(mp);
    map c | c in mp :: Share(net, mp[c])
  }

  /** `savings`: each sub-category's percentage of the savings amount. */
  function SubShares(savingsAmount: real, sp: SubMap): (savings: SubMap)
    ensures forall s :: s in sp && s in savings && savings[s] == Share(savingsAmount, sp[s])
  {
    SubMapTotal(sp);
    map s | s in sp :: Share(savingsAmount, sp[s])
  }

  /**
   `calculateAllocations`: the two `forEach` loops that fill `main` and
   `savings`, category by category in display order.
   */
  method CalculateAllocations(amount: real, withTax: bool, mp: MainMap, sp: SubMap)
    returns (r: Allocation)
    ensures r == Allocate(amount, withTax, mp, sp)
  {
    if amount <= 0.0 {
      return NoAllocation;
    }
    var netAmount := if withTax then amount * (1.0 - TaxRate) else amount;
    var taxWithheld := if withTax then amount * TaxRate else 0.0;
    var main := FillMain(netAmount, mp);
    var savingsAmount := main[Savings];
    var savings := FillSavings(savingsAmount, sp);
    r := Allocation(main, savings, taxWithheld, Some(netAmount));
  }

  /** The `forEach` over the main categories in display order. */
  method FillMain(netAmount: real, mp: MainMap) returns (main: MainMap)
    ensures main == MainShares(netAmount, mp)
  {
    MainMapTotal(mp);
    MainOrderComplete();
    var m: map<Main, real> := map[];
    for i := 0 to |MainOrder|
      invariant forall c :: c in m <==> c in MainOrder[..i]
      invariant forall c :: c in m ==> m[c] == Share(netAmount, mp[c])
    {
      var key := MainOrder[i];
      assert MainOrder[..i + 1] == MainOrder[..i] + [key];
      m := m[key := Share(netAmount, mp[key])];
    }
    assert MainOrder[..|MainOrder|] == MainOrder;
    main := m;
  }

  /** The `forEach` over the savings sub-categories in display order. */
  method FillSavings(savingsAmount: real, sp: SubMap) returns (savings: SubMap)
    ensures savings == SubShares(savingsAmount, sp)
  {
    SubMapTotal(sp);
    SubOrderComplete();
    var m: map<Sub, real> := map[];
    for i := 0 to |SubOrder|
      invariant forall s :: s in m <==> s in SubOrder[..i]
      invariant forall s :: s in m ==> m[s] == Share(savingsAmount, sp[s])
    {
      var key := SubOrder[i];
      assert SubOrder[..i + 1] == SubOrder[..i] + [key];
      m := m[key := Share(savingsAmount, sp[key])];
    }
    assert SubOrder[..|SubOrder|] == SubOrder;
    savings := m;
  }

  /**
   With both percentage vectors at 100, the main amounts add up to the net
   amount and the sub-category amounts add up to the savings share.
   */
  lemma AllocationIsExact(amount: real, withTax: bool, mp: MainMap, sp: SubMap)
    requires amount > 0.0 && MainSum(mp) == 100.0 && SubSum(sp) == 100.0
    ensures var r := Allocate(amount, withTax, mp, sp);
      && MainSum(r.main) == r.netAmount.value
      && SubSum(r.savings) == r.main[Savings]
  {
  }

  /** The worked examples: 1000 without tax, and 1000 with the 33% tax withheld. */
  lemma AllocationExamples()
    ensures var r := Allocate(1000.0, false, DefaultMain, DefaultSub);
      && r.netAmount == Some(1000.0) && r.taxWithheld == 0.0
      && r.main == map[Fixed := 500.0, Savings := 250.0, Flexible := 150.0, Charity := 100.0]
      && r.savings == map[RainyDay := 100.0, Retirement := 75.0, Hsa := 37.5, BigPurchases := 37.5]
    ensures var r := Allocate(1000.0, true, DefaultMain, DefaultSub);
      && r.netAmount == Some(670.0) && r.taxWithheld == 330.0
      && r.main[Fixed] == 335.0 && r.main[Savings] == 167.5
    ensures Allocate(0.0, true, DefaultMain, DefaultSub) == NoAllocation
  {
  }
}
