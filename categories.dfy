/** The `spend_by_category` dictionary of `calculate_analytics` (main.py:110-113,
    119). Python dictionaries remember insertion order, and `get_savings_tips`
    depends on that order to break ties, so the model keeps the keys in the
    order they were first inserted beside the key-to-spend map. */
module Categories {

  /** Keys in insertion order, and the spend recorded for each key. */
  datatype CategoryMap = CategoryMap(order: seq<string>, totals: map<string, real>) {

    /** Each key is listed once, and the listed keys are exactly the map's keys. */
    ghost predicate Valid() {
      && (forall i, j :: 0 <= i < j < |order| ==> order[i] != order[j])
      && (forall c :: c in totals <==> c in order)
    }

    /** `spend_by_category[c] += x` on a `defaultdict(float)`: a missing key
        starts at 0 and is appended to the insertion order. */
    function Add(c: string, x: real): (r: CategoryMap)
      requires Valid()
      ensures r.Valid()
      ensures r.totals.Keys == totals.Keys + {c}
      ensures r.totals[c] == (if c in totals then totals[c] else 0.0) + x
      ensures forall d :: d in totals && d != c ==> r.totals[d] == totals[d]
      ensures c in totals ==> r.order == order
      ensures c !in totals ==> r.order == order + [c]
    {
      if c in totals then CategoryMap(order, totals[c := totals[c] + x])
      else CategoryMap(order + [c], totals[c := 0.0 + x])
    }

    /** The sum of the dictionary's values. */
    function Total(): real
      requires Valid()
    {
      SumOver(order, totals)
    }
  }

  /** The empty dictionary. */
  const Empty: CategoryMap := CategoryMap([], map[])

  /** The sum of `m[c]` over the keys `c` in `keys`. */
  function SumOver(keys: seq<string>, m: map<string, real>): real
    requires forall i :: 0 <= i < |keys| ==> keys[i] in m
  {
    if keys == [] then 0.0 else SumOver(keys[..|keys| - 1], m) + m[keys[|keys| - 1]]
  }

  /** The sum only depends on the values at the listed keys. */
  lemma {:induction false} SumOverAgree(keys: seq<string>, m: map<string, real>, m': map<string, real>)
    requires forall i :: 0 <= i < |keys| ==> keys[i] in m && keys[i] in m' && m[keys[i]] == m'[keys[i]]
    ensures SumOver(keys, m) == SumOver(keys, m')
  {
    if keys != [] {
      SumOverAgree(keys[..|keys| - 1], m, m');
    }
  }

  /** Raising the value of one listed key by `x` raises the sum by `x`. */
  lemma {:induction false} SumOverBump(keys: seq<string>, m: map<string, real>, c: string, x: real)
    requires forall i, j :: 0 <= i < j < |keys| ==> keys[i] != keys[j]
    requires forall i :: 0 <= i < |keys| ==> keys[i] in m
    requires c in keys && c in m
    ensures SumOver(keys, m[c := m[c] + x]) == SumOver(keys, m) + x
  {
    var p := keys[..|keys| - 1];
    if keys[|keys| - 1] == c {
      assert c !in p;
      SumOverAgree(p, m, m[c := m[c] + x]);
    } else {
      SumOverBump(p, m, c, x);
    }
  }

  /** Adding `x` under any key adds `x` to the sum of the values. */
  lemma AddTotal(cm: CategoryMap, c: string, x: real)
    requires cm.Valid()
    ensures cm.Add(c, x).Total() == cm.Total() + x
  {
    if c in cm.totals {
      AddExistingTotal(cm, c, x);
    } else {
      AddNewTotal(cm, c, x);
    }
  }

  lemma AddExistingTotal(cm: CategoryMap, c: string, x: real)
    requires cm.Valid() && c in cm.totals
    ensures cm.Add(c, x).Total() == cm.Total() + x
  {
    assert c in cm.order;
    SumOverBump(cm.order, cm.totals, c, x);
  }

  lemma AddNewTotal(cm: CategoryMap, c: string, x: real)
    requires cm.Valid() && c !in cm.totals
    ensures cm.Add(c, x).Total() == cm.Total() + x
  {
    var m := cm.totals[c := 0.0 + x];
    var order := cm.order + [c];
    assert order[..|cm.order|] == cm.order;
    assert SumOver(order, m) == SumOver(cm.order, m) + m[c];
    SumOverAgree(cm.order, cm.totals, m);
  }
}
