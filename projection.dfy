/** The `/summary` report of `get_summary` (main.py:132-162): burn rate and
    runway projected from the analytics and the caller's monthly income. */
module Projection {
  import opened Wrappers
  import opened Ledger
  import opened Categories
  import opened Analytics
  import opened Errors

  /** Python's `int(x)` on a float: truncation toward zero. */
  function Truncate(x: real): (n: int)
    ensures x >= 0.0 ==> 0 <= n && n as real <= x < n as real + 1.0
    ensures x < 0.0 ==> n <= 0 && n as real - 1.0 < x <= n as real
  {
    if x >= 0.0 then x.Floor else -((-x).Floor)
  }

  /** The projection part of the summary. */
  datatype Runway = Runway(
    dailySpendRate: real,
    monthlyBurnRate: real,
    moneyLeft: real,
    daysLeft: Option<int>)

  /** The straight-line arithmetic of main.py:144-151. */
  function Project(totalSpend: real, periodDays: int, monthlyIncome: real): (r: Runway)
    ensures periodDays > 0 ==> r.dailySpendRate * periodDays as real == totalSpend
    ensures periodDays > 0 ==> r.monthlyBurnRate * periodDays as real == 30.0 * totalSpend
    ensures periodDays <= 0 ==> r.dailySpendRate == 0.0 && r.monthlyBurnRate == 0.0
    ensures r.moneyLeft + totalSpend == monthlyIncome
    ensures r.daysLeft == None <==> r.dailySpendRate <= 0.0
    ensures r.daysLeft.Some? ==> r.daysLeft.value >= 0
    ensures r.daysLeft.Some? && r.moneyLeft <= 0.0 ==> r.daysLeft == Some(0)
    ensures r.daysLeft.Some? && r.moneyLeft > 0.0 ==>
      r.daysLeft.value as real * r.dailySpendRate <= r.moneyLeft < (r.daysLeft.value + 1) as real * r.dailySpendRate
  {
    var dailySpendRate := if periodDays > 0 then totalSpend / periodDays as real else 0.0;
    var monthlyBurnRate := dailySpendRate * 30.0;
    var moneyLeft := monthlyIncome - totalSpend;
    var daysLeft :=
      if dailySpendRate > 0.0 then Some(if moneyLeft > 0.0 then Truncate(moneyLeft / dailySpendRate) else 0)
      else None;
    DaysFit(moneyLeft, dailySpendRate);
    Runway(dailySpendRate, monthlyBurnRate, moneyLeft, daysLeft)
  }

  /** Whole days at `rate` that `money` lasts: the truncated quotient. */
  lemma DaysFit(money: real, rate: real)
    ensures money > 0.0 && rate > 0.0 ==>
      Truncate(money / rate) as real * rate <= money < (Truncate(money / rate) + 1) as real * rate
  {
    if money > 0.0 && rate > 0.0 {
      var q := money / rate;
      var n := Truncate(q);
      assert q * rate == money;
      ScaleLe(n as real, q, rate);
      var hi := (n + 1) as real;
      ScaleLt(q, hi, rate);
      assert q * rate < hi * rate;
      assert money < hi * rate;
    }
  }

  lemma ScaleLe(x: real, y: real, k: real)
    requires x <= y && k > 0.0
    ensures x * k <= y * k
  {
  }

  lemma ScaleLt(x: real, y: real, k: real)
    requires x < y && k > 0.0
    ensures x * k < y * k
  {
  }

  /** The fields of `SummaryResponse` (main.py:23-33), without the mascot name
      and before rounding. */
  datatype Summary = Summary(
    totalSpend: real,
    totalIncome: real,
    netFlow: real,
    spendByCategory: CategoryMap,
    monthlyBurnRate: real,
    moneyLeft: real,
    daysLeft: Option<int>,
    periodDays: int)

  /** `get_summary(monthly_income)` over the loaded transactions `ts`. */
  method GetSummary(ts: seq<Transaction>, monthlyIncome: real) returns (r: Result<Summary, Error>)
    ensures r == Failure(InvalidInput) <==> monthlyIncome <= 0.0
    ensures r == Failure(NoData) <==> monthlyIncome > 0.0 && ts == []
    ensures r.Success? ==>
      var a := Analyze(ts);
      var p := Project(a.totalSpend, a.periodDays, monthlyIncome);
      r.value == Summary(a.totalSpend, a.totalIncome, a.totalIncome - a.totalSpend, a.spendByCategory,
                         p.monthlyBurnRate, p.moneyLeft, p.daysLeft, a.periodDays)
    ensures r.Success? ==> r.value.totalSpend == SumOfType(ts, Debit)
    ensures r.Success? ==> r.value.totalIncome == SumOfType(ts, Credit)
    ensures r.Success? ==> r.value.spendByCategory.Total() == r.value.totalSpend
    ensures r.Success? ==> r.value.periodDays >= 1
    ensures r.Success? ==> r.value.moneyLeft == monthlyIncome - r.value.totalSpend
  {
    if monthlyIncome <= 0.0 {
      return Failure(InvalidInput);
    }
    if ts == [] {
      return Failure(NoData);
    }
    var a := CalculateAnalytics(ts);
    var p := Project(a.totalSpend, a.periodDays, monthlyIncome);
    r := Success(Summary(a.totalSpend, a.totalIncome, a.totalIncome - a.totalSpend, a.spendByCategory,
                         p.monthlyBurnRate, p.moneyLeft, p.daysLeft, a.periodDays));
  }

  /** With non-negative amounts, there is a runway figure exactly when some
      money was spent (main.py:144, 149-150). */
  lemma RunwayIffSpending(ts: seq<Transaction>, monthlyIncome: real)
    requires ts != [] && NonNegativeAmounts(ts)
    ensures Project(Analyze(ts).totalSpend, Analyze(ts).periodDays, monthlyIncome).daysLeft == None
        <==> SumOfType(ts, Debit) == 0.0
  {
    SumOfTypeBounds(ts, Debit);
    PeriodDaysSpan(ts);
    RunwayIffPositiveSpend(Analyze(ts).totalSpend, Analyze(ts).periodDays, monthlyIncome);
  }

  /** Over a span of at least one day, a non-negative spend gives a runway
      figure exactly when it is positive. */
  lemma RunwayIffPositiveSpend(totalSpend: real, periodDays: int, monthlyIncome: real)
    requires totalSpend >= 0.0 && periodDays >= 1
    ensures Project(totalSpend, periodDays, monthlyIncome).daysLeft == None <==> totalSpend == 0.0
  {
    var r := Project(totalSpend, periodDays, monthlyIncome);
    if totalSpend > 0.0 {
      assert r.dailySpendRate * periodDays as real > 0.0;
      assert r.dailySpendRate > 0.0;
    }
  }

  /** No spending gives no runway figure, whatever the income. */
  lemma NoSpendNoRunway(totalSpend: real, periodDays: int, monthlyIncome: real)
    requires totalSpend == 0.0
    ensures Project(totalSpend, periodDays, monthlyIncome).daysLeft == None
  {
  }

  /** Spending at or above the income gives a runway of 0 days, never a
      negative number. */
  lemma AlreadyBroke(totalSpend: real, periodDays: int, monthlyIncome: real)
    requires totalSpend > 0.0 && periodDays > 0 && monthlyIncome <= totalSpend
    ensures Project(totalSpend, periodDays, monthlyIncome).daysLeft == Some(0)
  {
  }

  /** A debit of 100 on day 0 and a credit of 5000 on day 4, with a monthly
      income of 6000. */
  lemma SummaryExample()
    ensures
      var ts := [Transaction(0, "lunch", 100.0, Debit, "Food Delivery", "UPI"),
                 Transaction(4, "pay", 5000.0, Credit, "Salary", "Bank")];
      var a := Analyze(ts);
      var p := Project(a.totalSpend, a.periodDays, 6000.0);
      && a.totalSpend == 100.0 && a.totalIncome == 5000.0 && a.periodDays == 5
      && p.dailySpendRate == 20.0 && p.monthlyBurnRate == 600.0 && p.moneyLeft == 5900.0
      && p.daysLeft == Some(295)
  {
    var ts := [Transaction(0, "lunch", 100.0, Debit, "Food Delivery", "UPI"),
               Transaction(4, "pay", 5000.0, Credit, "Salary", "Bank")];
    assert ts[..1] == [ts[0]];
    assert ts[..1][..0] == [];
    assert SumOfType(ts[..1], Debit) == 100.0;
    assert SumOfType(ts[..1], Credit) == 0.0;
    assert Debit != Credit by { assert Debit[0] != Credit[0]; }
    assert SumOfType(ts, Debit) == 100.0;
    assert SumOfType(ts, Credit) == 5000.0;
    assert MinDate(ts) == 0;
    assert MaxDate(ts) == 4;
    assert Analyze(ts).periodDays == 5;
    assert Truncate(5900.0 / 20.0) == 295;
  }
}
