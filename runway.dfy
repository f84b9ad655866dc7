/**
 Runway and forecast over the two operating accounts, Fixed and Flexible:
 how many months their balance lasts at the current spend, with and
 without the rainy-day reserve, and whether expected income makes the
 operating balance grow or shrink.
 */
module Runway {
  import opened Wrappers
  import opened Categories
  import opened Income
  import opened JsMath

  /** `getTotalMonthlySpend`: Fixed plus Flexible monthly spend. */
  function TotalMonthlySpend(a: Accounts): real {
    SpendOf(a, MainKey(Fixed)) + SpendOf(a, MainKey(Flexible))
  }

  /** `getTotalBalance`: Fixed plus Flexible balance. */
  function TotalBalance(a: Accounts): real {
    BalanceOf(a, MainKey(Fixed)) + BalanceOf(a, MainKey(Flexible))
  }

  /** `getRunwayMonths`: months the operating balance lasts at the current spend. */
  function RunwayMonths(a: Accounts): (r: Option<real>)
    ensures r.None? <==> TotalMonthlySpend(a) <= 0.0
    ensures r.Some? ==> r.value * TotalMonthlySpend(a) == TotalBalance(a)
  {
    var spend := TotalMonthlySpend(a);
    if spend <= 0.0 then None else Some(TotalBalance(a) / spend)
  }

  /** `getRunwayWithRainyDay`: the same, counting the rainy-day balance as well. */
  function RunwayWithRainyDay(a: Accounts): (r: Option<real>)
    ensures r.None? <==> TotalMonthlySpend(a) <= 0.0
    ensures r.Some? ==>
      r.value * TotalMonthlySpend(a) == TotalBalance(a) + BalanceOf(a, SubKey(RainyDay))
  {
    var total := TotalBalance(a) + BalanceOf(a, SubKey(RainyDay));
    var spend := TotalMonthlySpend(a);
    if spend <= 0.0 then None else Some(total / spend)
  }

  /**
   The reserve runway is the operating runway plus the months the rainy-day
   balance alone would cover, so it is never shorter when that balance is
   not negative.
   */
  lemma ReserveExtendsRunway(a: Accounts)
    ensures RunwayMonths(a).Some? <==> RunwayWithRainyDay(a).Some?
    ensures RunwayMonths(a).Some? ==>
      RunwayWithRainyDay(a).value
        == RunwayMonths(a).value + BalanceOf(a, SubKey(RainyDay)) / TotalMonthlySpend(a)
    ensures RunwayMonths(a).Some? && BalanceOf(a, SubKey(RainyDay)) >= 0.0 ==>
      RunwayWithRainyDay(a).value >= RunwayMonths(a).value
  {
    if TotalMonthlySpend(a) > 0.0 {
      var spend, rainy := TotalMonthlySpend(a), BalanceOf(a, SubKey(RainyDay));
      assert (TotalBalance(a) + rainy) / spend == TotalBalance(a) / spend + rainy / spend;
      if rainy >= 0.0 {
        assert rainy / spend >= 0.0;
      }
    }
  }

  /** The runway example: 1000 in the operating accounts against 1000 a month of spend. */
  lemma RunwayExample()
    ensures RunwayMonths(map[MainKey(Fixed) := Account(600.0, 0.0, 500.0),
                             MainKey(Flexible) := Account(400.0, 0.0, 500.0)]) == Some(1.0)
    ensures RunwayMonths(map[MainKey(Fixed) := Account(600.0, 0.0, 0.0),
                             MainKey(Flexible) := Account(400.0, 0.0, 0.0)]) == None
  {
  }

  /** How long until the operating balance reaches six months of spend. */
  datatype BufferEta =
    | Healthy               // `months: null`: already at or above the six-month buffer
    | Unreachable           // `Math.ceil(gap / 0)`: no surplus, so `months` is Infinity
    | InMonths(months: int) // months to the six-month buffer

  /** The forecast object; `Unknown` is the `null` result. */
  datatype Forecast =
    | Unknown
    | Growing(eta: BufferEta, netFlow: real)
    | Declining(months: real, netFlow: real)

  /** The number of months of spend the growing forecast aims for. */
  const BufferMonths: real := 6.0

  /** Income routed to the operating accounts minus their spend, per month. */
  function NetMonthlyFlow(a: Accounts, s: IncomeSettings, mp: MainMap): real {
    ForecastIncome(s) * ((mp[Fixed] + mp[Flexible]) / 100.0) - TotalMonthlySpend(a)
  }

  /** `getForecastRunway`. */
  function ForecastRunway(a: Accounts, s: IncomeSettings, mp: MainMap): (f: Forecast)
    ensures f.Unknown? <==> TotalMonthlySpend(a) <= 0.0 || ForecastIncome(s) <= 0.0
    ensures !f.Unknown? ==> f.netFlow == NetMonthlyFlow(a, s, mp)
    ensures !f.Unknown? ==> (f.Growing? <==> NetMonthlyFlow(a, s, mp) >= 0.0)
    ensures f.Growing? ==>
      var gap := TotalMonthlySpend(a) * BufferMonths - TotalBalance(a);
      && (f.eta.Healthy? <==> gap <= 0.0)
      && (f.eta.Unreachable? <==> gap > 0.0 && f.netFlow == 0.0)
      && (f.eta.InMonths? ==>
            && f.eta.months >= 1
            && f.eta.months as real * f.netFlow >= gap
            && (f.eta.months - 1) as real * f.netFlow < gap)
    ensures f.Declining? ==> f.netFlow < 0.0 && f.months * -f.netFlow == TotalBalance(a)
  {
    var monthlySpend := TotalMonthlySpend(a);
    if monthlySpend <= 0.0 then Unknown
    else
      var monthlyIncome := ForecastIncome(s);
      if monthlyIncome <= 0.0 then Unknown
      else
        var netMonthlyFlow := NetMonthlyFlow(a, s, mp);
        var currentBalance := TotalBalance(a);
        if netMonthlyFlow >= 0.0 then
          var gap := monthlySpend * BufferMonths - currentBalance;
          if gap <= 0.0 then Growing(Healthy, netMonthlyFlow)
          else if netMonthlyFlow == 0.0 then Growing(Unreachable, netMonthlyFlow)
          else
            var months := Ceil(gap / netMonthlyFlow);
            CeilQuotient(gap, netMonthlyFlow);
            Growing(InMonths(months), netMonthlyFlow)
        else
          Declining(currentBalance / -netMonthlyFlow, netMonthlyFlow)
  }

  /** The growing example: 3000 a month, 65% to operating, 1000 of spend, empty accounts. */
  lemma ForecastExample()
    ensures
      var a := map[MainKey(Fixed) := Account(0.0, 0.0, 600.0),
                   MainKey(Flexible) := Account(0.0, 0.0, 400.0)];
      var s := IncomeSettings(Regular, 1500.0, 2, 0.0, 3, true);
      ForecastRunway(a, s, DefaultMain) == Growing(InMonths(7), 950.0)
  {
    var a := map[MainKey(Fixed) := Account(0.0, 0.0, 600.0),
                 MainKey(Flexible) := Account(0.0, 0.0, 400.0)];
    var s := IncomeSettings(Regular, 1500.0, 2, 0.0, 3, true);
    assert NetMonthlyFlow(a, s, DefaultMain) == 950.0;
    assert 6000.0 / 950.0 > 6.0;
    assert Ceil(6000.0 / 950.0) == 7;
  }
}
