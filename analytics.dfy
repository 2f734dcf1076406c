/** `calculate_analytics` (main.py:102-119): one pass over the transactions
    giving total spend, total income, spend per category and the inclusive
    day span. */
module Analytics {
  import opened Ledger
  import opened Categories

  /** The four values `calculate_analytics` returns. */
  datatype Analytics = Analytics(
    totalSpend: real,
    totalIncome: real,
    spendByCategory: CategoryMap,
    periodDays: int)

  /** What `calculate_analytics` returns for an empty list. */
  const NoAnalytics: Analytics := Analytics(0.0, 0.0, Empty, 0)

  /** One iteration of the category loop (main.py:111-113). */
  function Accumulate(cm: CategoryMap, t: Transaction): (r: CategoryMap)
    requires cm.Valid()
    ensures r.Valid()
  {
    if t.kind == Debit then cm.Add(t.category, t.amount) else cm
  }

  /** The category dictionary after the loop has visited all of `ts`. */
  function CategorySpend(ts: seq<Transaction>): (cm: CategoryMap)
    ensures cm.Valid()
    ensures |cm.order| <= |ts|
  {
    if ts == [] then Empty else Accumulate(CategorySpend(ts[..|ts| - 1]), ts[|ts| - 1])
  }

  /** The result of `calculate_analytics(ts)`, as a function. */
  function Analyze(ts: seq<Transaction>): (a: Analytics)
    ensures a == NoAnalytics <==> ts == []
    ensures a.spendByCategory.Valid()
    ensures ts != [] ==> a.periodDays >= 1
  {
    if ts == [] then NoAnalytics
    else Analytics(
      SumOfType(ts, Debit),
      SumOfType(ts, Credit),
      CategorySpend(ts),
      MaxDate(ts) - MinDate(ts) + 1)
  }

  /** `calculate_analytics`: the sums, the in-place dictionary loop and the
      date span. */
  method CalculateAnalytics(ts: seq<Transaction>) returns (a: Analytics)
    ensures a == Analyze(ts)
    ensures ts == [] ==> a == NoAnalytics
    ensures a.totalSpend == SumOfType(ts, Debit) && a.totalIncome == SumOfType(ts, Credit)
    ensures a.spendByCategory.Valid()
    ensures forall c :: c in a.spendByCategory.totals <==> HasDebitIn(ts, c)
    ensures forall c :: c in a.spendByCategory.totals ==> a.spendByCategory.totals[c] == CategoryTotal(ts, c)
    ensures a.spendByCategory.Total() == a.totalSpend
    ensures ts != [] ==> a.periodDays >= 1
  {
    if ts == [] {
      return NoAnalytics;
    }
    var totalSpend := SumOfType(ts, Debit);
    var totalIncome := SumOfType(ts, Credit);
    var spendByCategory := Empty;
    for i := 0 to |ts|
      invariant spendByCategory == CategorySpend(ts[..i])
    {
      assert ts[..i + 1][..i] == ts[..i];
      var t := ts[i];
      if t.kind == Debit {
        spendByCategory := spendByCategory.Add(t.category, t.amount);
      }
    }
    assert ts[..|ts|] == ts;
    var firstDate := MinDate(ts);
    var lastDate := MaxDate(ts);
    var periodDays := lastDate - firstDate + 1;
    a := Analytics(totalSpend, totalIncome, spendByCategory, periodDays);
    CategoryKeysAndValues(ts);
    CategoriesSumToSpend(ts);
  }

  /** The dictionary's keys are exactly the categories of debit transactions. */
  lemma {:induction false} CategoryKeys(ts: seq<Transaction>)
    ensures forall c :: c in CategorySpend(ts).totals <==> HasDebitIn(ts, c)
  {
    if ts != [] {
      var p := ts[..|ts| - 1];
      CategoryKeys(p);
      forall c
        ensures HasDebitIn(ts, c) <==> HasDebitIn(p, c) || IsDebitIn(ts[|ts| - 1], c)
      {
        if HasDebitIn(p, c) {
          var k :| 0 <= k < |p| && IsDebitIn(p[k], c);
          assert ts[k] == p[k];
        }
        if HasDebitIn(ts, c) && !IsDebitIn(ts[|ts| - 1], c) {
          var k :| 0 <= k < |ts| && IsDebitIn(ts[k], c);
          assert p[k] == ts[k];
        }
      }
    }
  }

  /** Each key holds its category's debit spend. */
  lemma {:induction false} CategoryValues(ts: seq<Transaction>)
    ensures forall c :: c in CategorySpend(ts).totals ==> CategorySpend(ts).totals[c] == CategoryTotal(ts, c)
  {
    if ts != [] {
      var p := ts[..|ts| - 1];
      var cp := CategorySpend(p);
      CategoryValues(p);
      CategoryKeys(p);
      forall c | c in CategorySpend(ts).totals
        ensures CategorySpend(ts).totals[c] == CategoryTotal(ts, c)
      {
        if c !in cp.totals {
          NoDebitNoTotal(p, c);
        }
      }
    }
  }

  /** The two facts together. */
  lemma CategoryKeysAndValues(ts: seq<Transaction>)
    ensures forall c :: c in CategorySpend(ts).totals <==> HasDebitIn(ts, c)
    ensures forall c :: c in CategorySpend(ts).totals ==> CategorySpend(ts).totals[c] == CategoryTotal(ts, c)
  {
    CategoryKeys(ts);
    CategoryValues(ts);
  }

  /** The dictionary's values add up to the total spend (main.py:107, 119). */
  lemma {:induction false} CategoriesSumToSpend(ts: seq<Transaction>)
    ensures CategorySpend(ts).Total() == SumOfType(ts, Debit)
  {
    if ts != [] {
      var p := ts[..|ts| - 1];
      var t := ts[|ts| - 1];
      CategoriesSumToSpend(p);
      if t.kind == Debit {
        AddTotal(CategorySpend(p), t.category, t.amount);
      }
    }
  }

  /** Every key of `order` has a debit in `ts`. */
  ghost predicate AllDebited(ts: seq<Transaction>, order: seq<string>) {
    forall i :: 0 <= i < |order| ==> HasDebitIn(ts, order[i])
  }

  /** The keys of `order` appear in the order of their first debit in `ts`. */
  ghost predicate OrderedByFirstDebit(ts: seq<Transaction>, order: seq<string>) {
    forall i, j :: 0 <= i < j < |order| ==> FirstDebit(ts, order[i]) < FirstDebit(ts, order[j]) < |ts|
  }

  /** Keys are ordered by their first debit: this is the order in which
      `sorted` sees tied categories. */
  lemma {:induction false} CategoryOrderIsFirstDebitOrder(ts: seq<Transaction>)
    ensures OrderedByFirstDebit(ts, CategorySpend(ts).order)
  {
    if ts != [] {
      var p := ts[..|ts| - 1];
      var t := ts[|ts| - 1];
      var cp := CategorySpend(p);
      var order := CategorySpend(ts).order;
      CategoryOrderIsFirstDebitOrder(p);
      KeysDebited(p);
      assert CategorySpend(ts) == Accumulate(cp, t);
      if t.kind == Debit && t.category !in cp.totals {
        assert order == cp.order + [t.category];
        CategoryKeys(p);
        FirstDebitOrderStep(ts, cp.order, order, t.category);
      } else {
        assert order == cp.order;
        FirstDebitOrderStep(ts, cp.order, order, t.category);
      }
    }
  }

  lemma KeysDebited(ts: seq<Transaction>)
    ensures AllDebited(ts, CategorySpend(ts).order)
  {
    var cm := CategorySpend(ts);
    CategoryKeys(ts);
    forall i | 0 <= i < |cm.order|
      ensures HasDebitIn(ts, cm.order[i])
    {
      assert cm.order[i] in cm.totals;
    }
  }

  /** One step of the induction above, over the key orders before and after
      the last transaction. */
  lemma FirstDebitOrderStep(ts: seq<Transaction>, before: seq<string>, after: seq<string>, c: string)
    requires ts != []
    requires AllDebited(ts[..|ts| - 1], before)
    requires OrderedByFirstDebit(ts[..|ts| - 1], before)
    requires after == before ||
      (after == before + [c] && !HasDebitIn(ts[..|ts| - 1], c) && IsDebitIn(ts[|ts| - 1], c))
    ensures OrderedByFirstDebit(ts, after)
  {
    forall i | 0 <= i < |before|
      ensures FirstDebit(ts, before[i]) == FirstDebit(ts[..|ts| - 1], before[i]) < |ts| - 1
    {
      FirstDebitExtend(ts, before[i]);
    }
    if after != before {
      FirstDebitExtend(ts, c);
    }
    forall i, j | 0 <= i < j < |after|
      ensures FirstDebit(ts, after[i]) < FirstDebit(ts, after[j]) < |ts|
    {
      assert after[i] == before[i];
      if j < |before| {
        assert after[j] == before[j];
      } else {
        assert after[j] == c;
      }
    }
  }

  /** The span starts on the earliest date, ends on the latest, covers every
      date, is at least one day, and is exactly one day when all transactions
      share a date (main.py:115-117). */
  lemma PeriodDaysSpan(ts: seq<Transaction>)
    requires ts != []
    ensures Analyze(ts).periodDays >= 1
    ensures forall k :: 0 <= k < |ts| ==> MinDate(ts) <= ts[k].date < MinDate(ts) + Analyze(ts).periodDays
    ensures exists k :: 0 <= k < |ts| && ts[k].date == MinDate(ts) + Analyze(ts).periodDays - 1
    ensures Analyze(ts).periodDays == 1 <==> forall k :: 0 <= k < |ts| ==> ts[k].date == ts[0].date
  {
  }

  /** A transaction whose type is neither "debit" nor "credit", inserted at
      any position, changes neither total nor the category breakdown
      (main.py:107-108, 112). */
  lemma UnrecognisedTypeIgnored(ts: seq<Transaction>, t: Transaction, i: nat)
    requires IsUnrecognised(t) && i <= |ts|
    ensures Analyze(ts[..i] + [t] + ts[i..]).totalSpend == Analyze(ts).totalSpend
    ensures Analyze(ts[..i] + [t] + ts[i..]).totalIncome == Analyze(ts).totalIncome
    ensures Analyze(ts[..i] + [t] + ts[i..]).spendByCategory == Analyze(ts).spendByCategory
  {
    InsertUnrecognised(ts, t, i);
  }

  lemma {:induction false} InsertUnrecognised(ts: seq<Transaction>, t: Transaction, i: nat)
    requires IsUnrecognised(t) && i <= |ts|
    ensures var u := ts[..i] + [t] + ts[i..];
      && SumOfType(u, Debit) == SumOfType(ts, Debit)
      && SumOfType(u, Credit) == SumOfType(ts, Credit)
      && CategorySpend(u) == CategorySpend(ts)
  {
    var u := ts[..i] + [t] + ts[i..];
    if i == |ts| {
      assert u == ts + [t];
      AppendUnrecognised(ts, t);
    } else {
      var p := ts[..|ts| - 1];
      var last := ts[|ts| - 1];
      var v := p[..i] + [t] + p[i..];
      InsertUnrecognised(p, t, i);
      assert u[..|u| - 1] == v && u[|u| - 1] == last;
      assert CategorySpend(u) == Accumulate(CategorySpend(v), last);
      assert CategorySpend(ts) == Accumulate(CategorySpend(p), last);
    }
  }

  /** The base case above: the transaction is appended last. */
  lemma AppendUnrecognised(ts: seq<Transaction>, t: Transaction)
    requires IsUnrecognised(t)
    ensures SumOfType(ts + [t], Debit) == SumOfType(ts, Debit)
    ensures SumOfType(ts + [t], Credit) == SumOfType(ts, Credit)
    ensures CategorySpend(ts + [t]) == CategorySpend(ts)
  {
    var u := ts + [t];
    assert u[..|ts|] == ts && u[|ts|] == t;
    assert SumOfType(u, Debit) == SumOfType(ts, Debit) + 0.0;
    assert SumOfType(u, Credit) == SumOfType(ts, Credit) + 0.0;
    assert CategorySpend(u) == Accumulate(CategorySpend(ts), t);
  }
}
