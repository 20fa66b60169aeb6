/** The session ledger: the predictions made in one session, in the order
    they were made, and the two queries of the comparison view that pick the
    lowest- and the highest-priced one. */
module Ledger {
  import opened Wrappers
  import opened Features

  /** The prices of the predictions, position by position. */
  function Prices(predictions: seq<Prediction>): seq<real>
  {
    seq(|predictions|, i requires 0 <= i < |predictions| => predictions[i].price)
  }

  /** The built-in minimum of a non-empty list: a left-to-right scan that
      replaces the current value only by a strictly smaller item. The result
      is an item of the list and no item is below it. */
  function MinOf(s: seq<real>): (m: real)
    requires |s| > 0
    ensures m in s
    ensures forall j | 0 <= j < |s| :: m <= s[j]
  {
    if |s| == 1 then s[0]
    else
      var sofar := MinOf(s[..|s| - 1]);
      if s[|s| - 1] < sofar then s[|s| - 1] else sofar
  }

  /** The built-in maximum, the mirror image of MinOf. */
  function MaxOf(s: seq<real>): (m: real)
    requires |s| > 0
    ensures m in s
    ensures forall j | 0 <= j < |s| :: m >= s[j]
  {
    if |s| == 1 then s[0]
    else
      var sofar := MaxOf(s[..|s| - 1]);
      if s[|s| - 1] > sofar then s[|s| - 1] else sofar
  }

  /** The built-in position lookup of a list: the first position holding
      the value. */
  function IndexOf(s: seq<real>, x: real): (i: nat)
    requires x in s
    ensures i < |s| && s[i] == x
    ensures forall j | 0 <= j < i :: s[j] != x
  {
    if s[0] == x then 0 else 1 + IndexOf(s[1..], x)
  }

  /** Position i holds the lowest value, and no earlier position does. */
  ghost predicate IsFirstMinimum(s: seq<real>, i: int)
  {
    && 0 <= i < |s|
    && (forall j | 0 <= j < |s| :: s[i] <= s[j])
    && (forall j | 0 <= j < i :: s[j] > s[i])
  }

  /** Position i holds the highest value, and no earlier position does. */
  ghost predicate IsFirstMaximum(s: seq<real>, i: int)
  {
    && 0 <= i < |s|
    && (forall j | 0 <= j < |s| :: s[i] >= s[j])
    && (forall j | 0 <= j < i :: s[j] < s[i])
  }

  /** The source's choice for the cheapest property, the position of the
      first minimum, is the first position of the lowest price. */
  lemma IndexOfMinIsFirstMinimum(s: seq<real>)
    requires |s| > 0
    ensures IsFirstMinimum(s, IndexOf(s, MinOf(s)))
  {
  }

  /** Likewise for the priciest property. */
  lemma IndexOfMaxIsFirstMaximum(s: seq<real>)
    requires |s| > 0
    ensures IsFirstMaximum(s, IndexOf(s, MaxOf(s)))
  {
  }

  /** At most one position is the first minimum: the tie-break leaves no
      choice. */
  lemma FirstMinimumUnique(s: seq<real>, i: int, k: int)
    requires IsFirstMinimum(s, i) && IsFirstMinimum(s, k)
    ensures i == k
  {
    assert s[i] == s[k];
  }

  lemma FirstMaximumUnique(s: seq<real>, i: int, k: int)
    requires IsFirstMaximum(s, i) && IsFirstMaximum(s, k)
    ensures i == k
  {
    assert s[i] == s[k];
  }

  /** On a one-entry ledger both queries choose that entry. */
  lemma SingleEntryIsBoth(s: seq<real>)
    requires |s| == 1
    ensures IndexOf(s, MinOf(s)) == 0 && IndexOf(s, MaxOf(s)) == 0
  {
  }

  /** The prices of the comparison example, appended in this order: the
      second one is the cheapest and the third the priciest. */
  lemma ComparisonExample()
    ensures var s := [500000.0, 300000.0, 700000.0];
      IndexOf(s, MinOf(s)) == 1 && IndexOf(s, MaxOf(s)) == 2
  {
  }

  /** The list of predictions kept in the session state. It starts empty
      when the session does, grows by one record per successful prediction
      and is emptied by the clear button. */
  class SessionLedger {
    var predictions: seq<Prediction>

    constructor ()
      ensures predictions == []
    {
      predictions := [];
    }

    /** Keep one more record: it becomes the last, the earlier records stay
        as they were, in their order. */
    method Append(record: Prediction)
      modifies this
      ensures predictions == old(predictions) + [record]
    {
      predictions := predictions + [record];
    }

    /** Forget every record. */
    method Clear()
      modifies this
      ensures predictions == []
    {
      predictions := [];
    }

    /** The minimal-capital choice: the first record with the lowest price,
        which is the position the built-in minimum and position lookup give.
        The comparison view offers it only when there is a record. */
    method Cheapest() returns (index: nat, selected: Prediction)
      requires predictions != []
      ensures IsFirstMinimum(Prices(predictions), index)
      ensures index == IndexOf(Prices(predictions), MinOf(Prices(predictions)))
      ensures selected == predictions[index]
    {
      var prices := Prices(predictions);
      index := 0;
      var k := 1;
      while k < |prices|
        invariant 1 <= k <= |prices|
        invariant index < k
        invariant forall j | 0 <= j < k :: prices[index] <= prices[j]
        invariant forall j | 0 <= j < index :: prices[j] > prices[index]
      {
        if prices[k] < prices[index] {
          index := k;
        }
        k := k + 1;
      }
      IndexOfMinIsFirstMinimum(prices);
      FirstMinimumUnique(prices, index, IndexOf(prices, MinOf(prices)));
      selected := predictions[index];
    }

    /** The high-capital choice: the first record with the highest price. */
    method Priciest() returns (index: nat, selected: Prediction)
      requires predictions != []
      ensures IsFirstMaximum(Prices(predictions), index)
      ensures index == IndexOf(Prices(predictions), MaxOf(Prices(predictions)))
      ensures selected == predictions[index]
    {
      var prices := Prices(predictions);
      index := 0;
      var k := 1;
      while k < |prices|
        invariant 1 <= k <= |prices|
        invariant index < k
        invariant forall j | 0 <= j < k :: prices[index] >= prices[j]
        invariant forall j | 0 <= j < index :: prices[j] < prices[index]
      {
        if prices[k] > prices[index] {
          index := k;
        }
        k := k + 1;
      }
      IndexOfMaxIsFirstMaximum(prices);
      FirstMaximumUnique(prices, index, IndexOf(prices, MaxOf(prices)));
      selected := predictions[index];
    }

    /** One press of the predict button: the record is kept when the
        prediction succeeds; on a failure the ledger is left as it was. */
    method Predict(p: PropertyInput, model: Regressor) returns (outcome: Result<Prediction, Failure>)
      modifies this
      ensures outcome == PredictOnce(p, model)
      ensures predictions == if outcome.Ok? then old(predictions) + [outcome.value] else old(predictions)
    {
      outcome := PredictOnce(p, model);
      if outcome.Ok? {
        Append(outcome.value);
      }
    }
  }

  /** The comparison example played on a ledger: three records priced
      500000, 300000 and 700000 in that order, then a clear. */
  method ComparisonScenario(features: FeatureSnapshot)
  {
    var ledger := new SessionLedger();
    ledger.Append(Prediction(500000.0, 300, Finite(5.0), features));
    ledger.Append(Prediction(300000.0, 300, Finite(5.0), features));
    ledger.Append(Prediction(700000.0, 300, Finite(5.0), features));
    assert Prices(ledger.predictions) == [500000.0, 300000.0, 700000.0];
    var low, cheapest := ledger.Cheapest();
    var high, priciest := ledger.Priciest();
    ComparisonExample();
    assert low == 1 && cheapest.price == 300000.0;
    assert high == 2 && priciest.price == 700000.0;
    ledger.Clear();
    assert ledger.predictions == [];
  }
}
