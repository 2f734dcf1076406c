/** The `/tips` report of `get_savings_tips` (main.py:164-238): a fixed ladder of
    rules over the category breakdown, truncated to three entries, and one
    encouragement picked at random. */
module Tips {
  import opened Wrappers
  import opened Ledger
  import opened Categories
  import opened Analytics
  import opened Errors

  /** An advice entry, named by the rule that emits it. Title, text and emoji
      are fixed per rule; the two entries whose text interpolates a figure
      carry that figure. */
  datatype Tip =
    | KitchenGame(deliverySpend: real)   // top category is "Food Delivery"
    | TwentyFourHourRule                 // top category is "Shopping"
    | PreGame                            // top category is "Going Out"
    | SuttaCutBack(monthlySaving: real)  // "Sutta" has debit spend
    | OwnBarista                         // "Coffee" spend above 200
    | CheckSubscriptions                 // always

  /** The five encouragement strings of main.py:176-182, in order. */
  datatype Boost = Amazing | TakingControl | KeepSlaying | YouGotThis | Superpower

  const Boosts: seq<Boost> := [Amazing, TakingControl, KeepSlaying, YouGotThis, Superpower]

  /** `TipsResponse` without the mascot name. */
  datatype TipsResponse = TipsResponse(dailyBoost: Boost, tips: seq<Tip>)

  const FoodDelivery: string := "Food Delivery"
  const Shopping: string := "Shopping"
  const GoingOut: string := "Going Out"
  const Sutta: string := "Sutta"
  const Coffee: string := "Coffee"

  const MaxTips: nat := 3
  const CoffeeThreshold: real := 200.0

  /** A tip emitted by the top-category step. */
  predicate IsTopCategoryTip(t: Tip) {
    t.KitchenGame? || t.TwentyFourHourRule? || t.PreGame?
  }

  /** Position, in insertion order, of the first item of
      `sorted(items, key=value, reverse=True)`: Python's sort is stable also
      when reversed, so it is the first key holding the largest value. */
  function TopIndex(order: seq<string>, totals: map<string, real>): (k: nat)
    requires order != []
    requires forall i :: 0 <= i < |order| ==> order[i] in totals
    ensures k < |order|
  {
    if |order| == 1 then 0
    else
      var k := TopIndex(order[..|order| - 1], totals);
      if totals[order[|order| - 1]] > totals[order[k]] then |order| - 1 else k
  }

  /** The first sorted entry holds the largest value, and every key inserted
      before it holds a strictly smaller one. */
  lemma {:induction false} TopIndexIsFirstMax(order: seq<string>, totals: map<string, real>)
    requires order != []
    requires forall i :: 0 <= i < |order| ==> order[i] in totals
    ensures var k := TopIndex(order, totals);
      && (forall j :: 0 <= j < |order| ==> totals[order[j]] <= totals[order[k]])
      && (forall j :: 0 <= j < k ==> totals[order[j]] < totals[order[k]])
  {
    if |order| > 1 {
      var p := order[..|order| - 1];
      TopIndexIsFirstMax(p, totals);
      var k := TopIndex(p, totals);
      assert forall j :: 0 <= j < |p| ==> order[j] == p[j];
    }
  }

  /** `sorted_spend[0]`, if there is one. */
  function TopCategory(cm: CategoryMap): (top: Option<(string, real)>)
    requires cm.Valid()
    ensures top.None? <==> cm.order == []
    ensures top.Some? ==> top.value.0 in cm.totals && top.value.1 == cm.totals[top.value.0]
  {
    if cm.order == [] then None
    else
      var k := TopIndex(cm.order, cm.totals);
      Some((cm.order[k], cm.totals[cm.order[k]]))
  }

  /** There is no top category exactly when no transaction is a debit. */
  lemma NoTopCategoryWithoutDebits(ts: seq<Transaction>)
    ensures TopCategory(CategorySpend(ts)).None? <==> forall k :: 0 <= k < |ts| ==> ts[k].kind != Debit
  {
    var cm := CategorySpend(ts);
    CategoryKeys(ts);
    if cm.order == [] {
      forall k | 0 <= k < |ts|
        ensures ts[k].kind != Debit
      {
        assert !HasDebitIn(ts, ts[k].category);
      }
    } else {
      assert HasDebitIn(ts, cm.order[0]);
    }
  }

  /** The top category is a debit category with the largest debit spend and,
      of the categories with that spend, the one whose first debit comes
      earliest. */
  lemma TopCategoryOfTransactions(ts: seq<Transaction>)
    ensures var top := TopCategory(CategorySpend(ts));
      top.Some? ==>
        && HasDebitIn(ts, top.value.0)
        && top.value.1 == CategoryTotal(ts, top.value.0)
        && (forall c :: HasDebitIn(ts, c) ==> CategoryTotal(ts, c) <= top.value.1)
        && (forall c :: HasDebitIn(ts, c) && CategoryTotal(ts, c) == top.value.1 ==>
              FirstDebit(ts, top.value.0) <= FirstDebit(ts, c))
  {
    var cm := CategorySpend(ts);
    if cm.order != [] {
      CategoryKeysAndValues(ts);
      var k := TopIndex(cm.order, cm.totals);
      TopIndexIsFirstMax(cm.order, cm.totals);
      var top := cm.order[k];
      forall c | HasDebitIn(ts, c)
        ensures CategoryTotal(ts, c) <= cm.totals[top]
        ensures CategoryTotal(ts, c) == cm.totals[top] ==> FirstDebit(ts, top) <= FirstDebit(ts, c)
      {
        assert c in cm.order;
        var j :| 0 <= j < |cm.order| && cm.order[j] == c;
        if CategoryTotal(ts, c) == cm.totals[top] && j != k {
          assert k < j;
          CategoryOrderIsFirstDebitOrder(ts);
          assert FirstDebit(ts, cm.order[k]) < FirstDebit(ts, cm.order[j]);
        }
      }
    }
  }

  /** The three categories that have a top-category tip. */
  predicate IsRecognisedTop(c: string) {
    c == FoodDelivery || c == Shopping || c == GoingOut
  }

  /** Step 1 (main.py:190-209): the tip for a recognised top category. */
  function TopCategoryTip(cm: CategoryMap): (tip: Option<Tip>)
    requires cm.Valid()
    ensures tip.Some? ==> IsTopCategoryTip(tip.value)
    ensures tip.Some? <==> TopCategory(cm).Some? && IsRecognisedTop(TopCategory(cm).value.0)
    ensures TopCategory(cm).Some? && TopCategory(cm).value.0 == FoodDelivery ==>
      tip == Some(KitchenGame(TopCategory(cm).value.1))
    ensures TopCategory(cm).Some? && TopCategory(cm).value.0 == Shopping ==> tip == Some(TwentyFourHourRule)
    ensures TopCategory(cm).Some? && TopCategory(cm).value.0 == GoingOut ==> tip == Some(PreGame)
  {
    match TopCategory(cm)
    case None => None
    case Some((c, amount)) =>
      if c == FoodDelivery then Some(KitchenGame(amount))
      else if c == Shopping then Some(TwentyFourHourRule)
      else if c == GoingOut then Some(PreGame)
      else None
  }

  /** The rough monthly saving of main.py:214: the Sutta spend per
      transaction, cut by 75% and scaled to 30 days. */
  function SuttaSaving(amount: real, count: nat): real
    requires count > 0
  {
    amount / count as real * 0.75 * 30.0
  }

  /** The saving is 22.5 times the Sutta spend spread over the transactions,
      and a spend that is not negative saves nothing negative. */
  lemma SuttaSavingRate(amount: real, count: nat)
    requires count > 0
    ensures SuttaSaving(amount, count) * count as real == 22.5 * amount
    ensures amount >= 0.0 ==> SuttaSaving(amount, count) >= 0.0
  {
  }

  /** Sutta spend of 300 over 10 transactions gives a saving of 675. */
  lemma SuttaSavingExample()
    ensures SuttaSaving(300.0, 10) == 675.0
  {
  }

  /** Step 2 (main.py:212-219). */
  function SuttaTip(cm: CategoryMap, count: nat): (tip: Option<Tip>)
    requires count > 0
    ensures tip.Some? <==> Sutta in cm.totals
    ensures tip.Some? ==> tip.value.SuttaCutBack? && tip.value.monthlySaving == SuttaSaving(cm.totals[Sutta], count)
  {
    if Sutta in cm.totals then Some(SuttaCutBack(SuttaSaving(cm.totals[Sutta], count))) else None
  }

  /** Step 3 (main.py:221-226). */
  function CoffeeTip(cm: CategoryMap): (tip: Option<Tip>)
    ensures tip.Some? <==> Coffee in cm.totals && cm.totals[Coffee] > CoffeeThreshold
    ensures tip.Some? ==> tip.value == OwnBarista
  {
    if Coffee in cm.totals && cm.totals[Coffee] > CoffeeThreshold then Some(OwnBarista) else None
  }

  function Emit(t: Option<Tip>): seq<Tip> {
    if t.Some? then [t.value] else []
  }

  /** The ladder as an ordered table of rules: each rule contributes its tip,
      if it fires, after those of the rules before it; the last always fires. */
  function Ladder(cm: CategoryMap, count: nat): seq<Tip>
    requires cm.Valid() && count > 0
  {
    Emit(TopCategoryTip(cm)) + Emit(SuttaTip(cm, count)) + Emit(CoffeeTip(cm)) + [CheckSubscriptions]
  }

  /** The ladder yields one to four tips, ends with the subscriptions tip and
      holds it nowhere else, and is full exactly when all three rules fire. */
  lemma LadderShape(cm: CategoryMap, count: nat)
    requires cm.Valid() && count > 0
    ensures var tips := Ladder(cm, count);
      && 1 <= |tips| <= 4
      && tips[|tips| - 1] == CheckSubscriptions
      && CheckSubscriptions !in tips[..|tips| - 1]
      && (|tips| == 4 <==> TopCategoryTip(cm).Some? && SuttaTip(cm, count).Some? && CoffeeTip(cm).Some?)
  {
  }

  /** The first `n` elements of `s`, as Python's `s[:n]`. */
  function Take<T>(s: seq<T>, n: nat): (r: seq<T>)
    ensures |r| == if |s| <= n then |s| else n
    ensures forall i :: 0 <= i < |r| ==> r[i] == s[i]
  {
    if |s| <= n then s else s[..n]
  }

  /** `personalized_tips`: the ladder cut to three entries (main.py:237). */
  function SavingsTips(cm: CategoryMap, count: nat): (tips: seq<Tip>)
    requires cm.Valid() && count > 0
    ensures 1 <= |tips| <= MaxTips
    ensures tips <= Ladder(cm, count)
    ensures |tips| < MaxTips ==> tips == Ladder(cm, count)
  {
    Take(Ladder(cm, count), MaxTips)
  }

  /** A recognised top category's tip comes first; no other entry is a
      top-category tip (main.py:190-209). */
  lemma TopTipFirst(cm: CategoryMap, count: nat)
    requires cm.Valid() && count > 0
    ensures var tips := SavingsTips(cm, count);
      && (IsTopCategoryTip(tips[0]) <==> TopCategoryTip(cm).Some?)
      && (TopCategoryTip(cm).Some? ==> tips[0] == TopCategoryTip(cm).value)
      && forall i :: 0 < i < |tips| ==> !IsTopCategoryTip(tips[i])
  {
    OnlyFirstIsTopTip(TopCategoryTip(cm), SuttaTip(cm, count), CoffeeTip(cm));
  }

  lemma OnlyFirstIsTopTip(top: Option<Tip>, sutta: Option<Tip>, coffee: Option<Tip>)
    requires top.Some? ==> IsTopCategoryTip(top.value)
    requires sutta.Some? ==> !IsTopCategoryTip(sutta.value)
    requires coffee.Some? ==> !IsTopCategoryTip(coffee.value)
    ensures var tips := Take(Emit(top) + Emit(sutta) + Emit(coffee) + [CheckSubscriptions], MaxTips);
      && (IsTopCategoryTip(tips[0]) <==> top.Some?)
      && (top.Some? ==> tips[0] == top.value)
      && forall i :: 0 < i < |tips| ==> !IsTopCategoryTip(tips[i])
  {
  }

  /** The Sutta tip is returned exactly when "Sutta" has debit spend, and it
      carries the saving of main.py:214 (it is never cut off, as at most one
      tip precedes it). */
  lemma SuttaTipShown(cm: CategoryMap, count: nat)
    requires cm.Valid() && count > 0
    ensures var tips := SavingsTips(cm, count);
      && ((exists i :: 0 <= i < |tips| && tips[i].SuttaCutBack?) <==> Sutta in cm.totals)
      && forall i :: 0 <= i < |tips| && tips[i].SuttaCutBack? ==>
           tips[i].monthlySaving == SuttaSaving(cm.totals[Sutta], count)
  {
    OnlySuttaTipIsSecondRule(TopCategoryTip(cm), SuttaTip(cm, count), CoffeeTip(cm));
  }

  lemma OnlySuttaTipIsSecondRule(top: Option<Tip>, sutta: Option<Tip>, coffee: Option<Tip>)
    requires top.Some? ==> !top.value.SuttaCutBack?
    requires coffee.Some? ==> !coffee.value.SuttaCutBack?
    ensures var tips := Take(Emit(top) + Emit(sutta) + Emit(coffee) + [CheckSubscriptions], MaxTips);
      && ((exists i :: 0 <= i < |tips| && tips[i].SuttaCutBack?) <==> sutta.Some? && sutta.value.SuttaCutBack?)
      && forall i :: 0 <= i < |tips| && tips[i].SuttaCutBack? ==> tips[i] == sutta.value
  {
    var tips := Take(Emit(top) + Emit(sutta) + Emit(coffee) + [CheckSubscriptions], MaxTips);
    if sutta.Some? {
      assert tips[|Emit(top)|] == sutta.value;
    }
  }

  /** The Coffee tip is returned exactly when Coffee spend exceeds 200 (it is
      never cut off, as at most two tips precede it). */
  lemma CoffeeTipShown(cm: CategoryMap, count: nat)
    requires cm.Valid() && count > 0
    ensures OwnBarista in SavingsTips(cm, count) <==> Coffee in cm.totals && cm.totals[Coffee] > CoffeeThreshold
  {
  }

  /** The subscriptions tip is returned, as the last entry, unless all three
      earlier rules fired and the cut to three removed it. */
  lemma SubscriptionsTipShown(cm: CategoryMap, count: nat)
    requires cm.Valid() && count > 0
    ensures var tips := SavingsTips(cm, count);
      && (CheckSubscriptions in tips <==>
            !(TopCategoryTip(cm).Some? && Sutta in cm.totals && CoffeeTip(cm).Some?))
      && (CheckSubscriptions in tips ==> tips[|tips| - 1] == CheckSubscriptions)
  {
  }

  /** The successive appends of main.py:184-233, on the category breakdown
      `cm` of `count` transactions: the rules fire in the ladder's order. */
  method BuildTips(cm: CategoryMap, count: nat) returns (tips: seq<Tip>)
    requires cm.Valid() && count > 0
    ensures tips == Ladder(cm, count)
  {
    tips := [];
    var top := TopCategory(cm);
    if top.Some? {
      var (topCategory, topAmount) := top.value;
      if topCategory == FoodDelivery {
        tips := tips + [KitchenGame(topAmount)];
      } else if topCategory == Shopping {
        tips := tips + [TwentyFourHourRule];
      } else if topCategory == GoingOut {
        tips := tips + [PreGame];
      }
    }
    assert tips == Emit(TopCategoryTip(cm));
    if Sutta in cm.totals {
      var amount := cm.totals[Sutta];
      var monthlySaving := amount / count as real * 0.75 * 30.0;
      tips := tips + [SuttaCutBack(monthlySaving)];
    }
    if Coffee in cm.totals && cm.totals[Coffee] > CoffeeThreshold {
      tips := tips + [OwnBarista];
    }
    tips := tips + [CheckSubscriptions];
  }

  /** `get_savings_tips` over the loaded transactions `ts`; `pick` is the
      index `random.choice` draws. */
  method GetSavingsTips(ts: seq<Transaction>, pick: nat) returns (r: Result<TipsResponse, Error>)
    requires pick < |Boosts|
    ensures r == Failure(NoData) <==> ts == []
    ensures r.Success? <==> ts != []
    ensures r.Success? ==> r.value.dailyBoost == Boosts[pick]
    ensures r.Success? ==> r.value.tips == SavingsTips(Analyze(ts).spendByCategory, |ts|)
  {
    if ts == [] {
      return Failure(NoData);
    }
    var a := CalculateAnalytics(ts);
    var tips := BuildTips(a.spendByCategory, |ts|);
    r := Success(TipsResponse(Boosts[pick], Take(tips, MaxTips)));
  }
}
