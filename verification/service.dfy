/** The quantification service: turns target allocations and an initial
    investment into a quantified portfolio. No validation is done: the
    input may be empty, mix dates, repeat ids, or have weights that do not
    sum to one. */
module Service {
  import opened Holdings
  import opened DayIndex
  import opened Portfolio

  /** Every asset has a price to divide by. */
  predicate Priced(assets: seq<Asset>)
  {
    forall k | 0 <= k < |assets| :: assets[k].price != 0.0
  }

  /** `Quantify` applied to every asset, in input order: the reference
      meaning of the service. */
  function QuantifyAll(assets: seq<Asset>, initialAmount: real): (qs: seq<QuantifiedAsset>)
    requires Priced(assets)
    ensures |qs| == |assets|
    ensures forall k | 0 <= k < |assets| ::
      qs[k].id == assets[k].id && qs[k].price == assets[k].price && qs[k].date == assets[k].date
    ensures forall k | 0 <= k < |assets| :: qs[k].Amount() == assets[k].weight * initialAmount
  {
    if assets == [] then []
    else [Quantify(assets[0], initialAmount)] + QuantifyAll(assets[1..], initialAmount)
  }

  /** The portfolio holding every asset quantified against
      `initialAmount`, one holding per asset in input order. */
  method ToQuantifiedPortfolio(assets: seq<Asset>, initialAmount: real) returns (p: QuantifiedPortfolio)
    requires Priced(assets)
    ensures p.assets == QuantifyAll(assets, initialAmount)
    ensures |p.assets| == |assets|
    ensures forall k | 0 <= k < |assets| :: p.assets[k] == Quantify(assets[k], initialAmount)
  {
    var quantified: seq<QuantifiedAsset> := [];
    for n := 0 to |assets|
      invariant quantified == QuantifyAll(assets[..n], initialAmount)
    {
      assert assets[..n + 1] == assets[..n] + [assets[n]];
      QuantifyAllSnoc(assets[..n], assets[n], initialAmount);
      quantified := quantified + [Quantify(assets[n], initialAmount)];
    }
    assert assets[..|assets|] == assets;
    p := QuantifiedPortfolio(quantified);
    QuantifyAllAt(assets, initialAmount);
  }

  /** Quantifying one more asset appends its holding. */
  lemma {:induction false} QuantifyAllSnoc(assets: seq<Asset>, a: Asset, initialAmount: real)
    requires Priced(assets) && a.price != 0.0
    ensures Priced(assets + [a])
    ensures QuantifyAll(assets + [a], initialAmount) == QuantifyAll(assets, initialAmount) + [Quantify(a, initialAmount)]
  {
    if assets != [] {
      assert (assets + [a])[1..] == assets[1..] + [a];
      QuantifyAllSnoc(assets[1..], a, initialAmount);
    }
  }

  /** Holding `k` of the quantified list is the quantified asset `k`. */
  lemma {:induction false} QuantifyAllAt(assets: seq<Asset>, initialAmount: real)
    requires Priced(assets)
    ensures forall k | 0 <= k < |assets| :: QuantifyAll(assets, initialAmount)[k] == Quantify(assets[k], initialAmount)
  {
    if assets != [] {
      QuantifyAllAt(assets[1..], initialAmount);
    }
  }

  /** The sum of the target weights. */
  function SumWeights(assets: seq<Asset>): real
  {
    if assets == [] then 0.0 else assets[0].weight + SumWeights(assets[1..])
  }

  /** A list whose holdings all have `day` is its own selection for `day`. */
  lemma {:induction false} OnDayAll(s: seq<QuantifiedAsset>, day: int)
    requires forall k | 0 <= k < |s| :: s[k].date == day
    ensures OnDay(s, day) == s
  {
    if s != [] {
      OnDayAll(s[1..], day);
    }
  }

  /** The quantified holdings are worth the initial amount times the sum
      of the weights. */
  lemma {:induction false} QuantifiedValue(assets: seq<Asset>, initialAmount: real)
    requires Priced(assets)
    ensures SumAmounts(QuantifyAll(assets, initialAmount)) == initialAmount * SumWeights(assets)
  {
    if assets != [] {
      QuantifiedValue(assets[1..], initialAmount);
    }
  }

  /** When every asset shares `day`, the portfolio's total on that day is
      the initial amount times the sum of the weights; it equals the
      initial amount exactly when the weights sum to one. */
  lemma SameDayTotal(assets: seq<Asset>, initialAmount: real, day: int)
    requires Priced(assets)
    requires forall k | 0 <= k < |assets| :: assets[k].date == day
    ensures Total(QuantifiedPortfolio(QuantifyAll(assets, initialAmount)), day) ==
      initialAmount * SumWeights(assets)
  {
    OnDayAll(QuantifyAll(assets, initialAmount), day);
    QuantifiedValue(assets, initialAmount);
  }
}
