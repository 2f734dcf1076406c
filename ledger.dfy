/** The transaction record and the folds over a transaction list that
    `calculate_analytics` computes with generator expressions (main.py:107-108,
    115-116), together with independent per-category definitions used to state
    what the category breakdown means. */
module Ledger {

  /** One transaction. The date is a day number (days since some fixed epoch),
      the amount an exact real standing for Python's float, and `kind` the
      free-text `type` field, so that values other than "debit" and "credit"
      can occur. */
  datatype Transaction = Transaction(
    date: int,
    description: string,
    amount: real,
    kind: string,
    category: string,
    paymentMethod: string)

  const Debit: string := "debit"
  const Credit: string := "credit"

  /** The type is neither "debit" nor "credit". */
  predicate IsUnrecognised(t: Transaction) {
    t.kind != Debit && t.kind != Credit
  }

  /** A debit in category `c`: such a transaction adds to `spend_by_category[c]`. */
  predicate IsDebitIn(t: Transaction, c: string) {
    t.kind == Debit && t.category == c
  }

  /** Every amount is non-negative, as the data is assumed (not enforced) to be. */
  predicate NonNegativeAmounts(ts: seq<Transaction>) {
    forall k :: 0 <= k < |ts| ==> ts[k].amount >= 0.0
  }

  /** `sum(t.amount for t in ts if t.type == kind)`. */
  function SumOfType(ts: seq<Transaction>, kind: string): real {
    if ts == [] then 0.0
    else SumOfType(ts[..|ts| - 1], kind) + (if ts[|ts| - 1].kind == kind then ts[|ts| - 1].amount else 0.0)
  }

  /** A sum by type is 0 when no transaction has that type, and non-negative
      when every amount is. */
  lemma {:induction false} SumOfTypeBounds(ts: seq<Transaction>, kind: string)
    ensures (forall k :: 0 <= k < |ts| ==> ts[k].kind != kind) ==> SumOfType(ts, kind) == 0.0
    ensures NonNegativeAmounts(ts) ==> SumOfType(ts, kind) >= 0.0
  {
    if ts != [] {
      SumOfTypeBounds(ts[..|ts| - 1], kind);
    }
  }

  /** The amounts of all transactions, whatever their type. */
  function SumAmounts(ts: seq<Transaction>): real {
    if ts == [] then 0.0 else SumAmounts(ts[..|ts| - 1]) + ts[|ts| - 1].amount
  }

  /** The amounts of the transactions whose type is neither "debit" nor "credit". */
  function SumOfUnrecognised(ts: seq<Transaction>): real {
    if ts == [] then 0.0
    else SumOfUnrecognised(ts[..|ts| - 1]) + (if IsUnrecognised(ts[|ts| - 1]) then ts[|ts| - 1].amount else 0.0)
  }

  /** Every transaction's amount goes to exactly one of the debit total, the
      credit total and the unrecognised remainder. */
  lemma {:induction false} TypeTotalsPartition(ts: seq<Transaction>)
    ensures SumOfType(ts, Debit) + SumOfType(ts, Credit) + SumOfUnrecognised(ts) == SumAmounts(ts)
  {
    if ts != [] {
      TypeTotalsPartition(ts[..|ts| - 1]);
      assert Debit != Credit by { assert Debit[0] != Credit[0]; }
    }
  }

  /** When every type is recognised, spend plus income is the sum of all amounts. */
  lemma KnownTypesAddUp(ts: seq<Transaction>)
    requires forall k :: 0 <= k < |ts| ==> !IsUnrecognised(ts[k])
    ensures SumOfType(ts, Debit) + SumOfType(ts, Credit) == SumAmounts(ts)
  {
    TypeTotalsPartition(ts);
    NoUnrecognisedSumsToZero(ts);
  }

  lemma {:induction false} NoUnrecognisedSumsToZero(ts: seq<Transaction>)
    requires forall k :: 0 <= k < |ts| ==> !IsUnrecognised(ts[k])
    ensures SumOfUnrecognised(ts) == 0.0
  {
    if ts != [] {
      NoUnrecognisedSumsToZero(ts[..|ts| - 1]);
    }
  }

  /** The debit spend of category `c`: an independent definition of the value
      that `spend_by_category[c]` should hold. */
  function CategoryTotal(ts: seq<Transaction>, c: string): real {
    if ts == [] then 0.0
    else CategoryTotal(ts[..|ts| - 1], c) + (if IsDebitIn(ts[|ts| - 1], c) then ts[|ts| - 1].amount else 0.0)
  }

  /** A category with no debit has no debit spend. */
  lemma {:induction false} NoDebitNoTotal(ts: seq<Transaction>, c: string)
    requires !HasDebitIn(ts, c)
    ensures CategoryTotal(ts, c) == 0.0
  {
    if ts != [] {
      NoDebitNoTotal(ts[..|ts| - 1], c);
    }
  }

  /** Some debit transaction has category `c`. */
  predicate HasDebitIn(ts: seq<Transaction>, c: string) {
    exists k :: 0 <= k < |ts| && IsDebitIn(ts[k], c)
  }

  /** The index of the first debit in category `c`, or `|ts|` when there is none. */
  function FirstDebit(ts: seq<Transaction>, c: string): (k: nat)
    ensures k <= |ts|
    ensures k < |ts| ==> IsDebitIn(ts[k], c)
    ensures forall j :: 0 <= j < k && j < |ts| ==> !IsDebitIn(ts[j], c)
    ensures k == |ts| <==> !HasDebitIn(ts, c)
  {
    if ts == [] then 0
    else
      var p := ts[..|ts| - 1];
      var k := FirstDebit(p, c);
      if k < |p| then k
      else if IsDebitIn(ts[|ts| - 1], c) then |p|
      else |ts|
  }

  /** Appending a transaction keeps an existing first debit, and makes the
      new transaction the first debit of a category that had none. */
  lemma FirstDebitExtend(ts: seq<Transaction>, c: string)
    requires ts != []
    ensures HasDebitIn(ts[..|ts| - 1], c) ==> FirstDebit(ts, c) == FirstDebit(ts[..|ts| - 1], c) < |ts| - 1
    ensures !HasDebitIn(ts[..|ts| - 1], c) && IsDebitIn(ts[|ts| - 1], c) ==> FirstDebit(ts, c) == |ts| - 1
  {
  }

  /** `min(t.date for t in ts)`. */
  function MinDate(ts: seq<Transaction>): (d: int)
    requires ts != []
    ensures exists k :: 0 <= k < |ts| && ts[k].date == d
    ensures forall k :: 0 <= k < |ts| ==> d <= ts[k].date
  {
    if |ts| == 1 then ts[0].date
    else
      var m := MinDate(ts[..|ts| - 1]);
      if ts[|ts| - 1].date < m then ts[|ts| - 1].date else m
  }

  /** `max(t.date for t in ts)`. */
  function MaxDate(ts: seq<Transaction>): (d: int)
    requires ts != []
    ensures exists k :: 0 <= k < |ts| && ts[k].date == d
    ensures forall k :: 0 <= k < |ts| ==> ts[k].date <= d
  {
    if |ts| == 1 then ts[0].date
    else
      var m := MaxDate(ts[..|ts| - 1]);
      if ts[|ts| - 1].date > m then ts[|ts| - 1].date else m
  }
}
