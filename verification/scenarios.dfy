/** Concrete scenarios from the project's unit tests, restated over the
    model. Day 739252 is the day ordinal of 2025-01-01. */
module Scenarios {
  import opened Wrappers
  import opened Holdings
  import opened DayIndex
  import opened Portfolio
  import opened PortfolioLemmas
  import opened Service

  const NewYear: int := 739252

  /** The single holding the buy and sell tests start from. */
  function Asset1(): QuantifiedAsset
  {
    QuantifiedAsset("ASSET1", 10.0, 100.0, NewYear)
  }

  /** A portfolio of holdings that all share one day: that day lists
      them all and is worth the sum of their values. */
  lemma OneDayPortfolio(s: seq<QuantifiedAsset>, day: int)
    requires forall k | 0 <= k < |s| :: s[k].date == day
    ensures AssetsOn(QuantifiedPortfolio(s), day) == s
    ensures Total(QuantifiedPortfolio(s), day) == SumAmounts(s)
  {
    OnDayAll(s, day);
  }

  /** The total of a single holding's day is that holding's value. */
  lemma SingleHoldingTotal(h: QuantifiedAsset)
    ensures Total(QuantifiedPortfolio([h]), h.date) == h.Amount()
  {
    OneDayPortfolio([h], h.date);
    assert [h][1..] == [];
  }

  /** Buying into a one-holding portfolio adds the bought units. */
  lemma SingleHoldingBuy(h: QuantifiedAsset, amount: real)
    requires amount >= 0.0 && h.price != 0.0
    ensures Buy(QuantifiedPortfolio([h]), h.id, h.date, amount) ==
      Success(QuantifiedPortfolio([h.(quantity := h.quantity + amount / h.price)]))
  {
    var p := QuantifiedPortfolio([h]);
    assert FirstMatch(p.assets, h.id, h.date) == Some(0);
    var r := Buy(p, h.id, h.date, amount);
    var x := h.(quantity := h.quantity + amount / h.price);
    SoleChangeIsUpdate(p.assets, r.value.assets, 0, x.quantity);
    assert [h][0 := x] == [x];
  }

  /** Selling within a one-holding portfolio's units removes the sold units. */
  lemma SingleHoldingSell(h: QuantifiedAsset, amount: real)
    requires amount >= 0.0 && h.price != 0.0 && amount / h.price <= h.quantity
    ensures Sell(QuantifiedPortfolio([h]), h.id, h.date, amount) ==
      Success(QuantifiedPortfolio([h.(quantity := h.quantity - amount / h.price)]))
  {
    var p := QuantifiedPortfolio([h]);
    assert FirstMatch(p.assets, h.id, h.date) == Some(0);
    var r := Sell(p, h.id, h.date, amount);
    var x := h.(quantity := h.quantity - amount / h.price);
    SoleChangeIsUpdate(p.assets, r.value.assets, 0, x.quantity);
    assert [h][0 := x] == [x];
  }

  /** Weight 0.4 of 1000 at price 100 is 4 units. */
  lemma QuantifyExample()
    ensures Quantify(Asset("ASSET1", 0.4, 100.0, NewYear), 1000.0).quantity == 4.0
  {
  }

  /** Weights 0.4 and 0.6 at price 100 with 1000 invested give 4 and 6 units. */
  lemma ServiceExample()
    ensures var qs := QuantifyAll([Asset("ASSET1", 0.4, 100.0, NewYear), Asset("ASSET2", 0.6, 100.0, NewYear)], 1000.0);
      |qs| == 2 && qs[0].quantity == 4.0 && qs[1].quantity == 6.0
  {
  }

  /** Nothing is validated: an empty input gives an empty portfolio, and
      repeated ids on different days with weights summing past one are
      quantified one by one. */
  lemma NoValidationExample()
    ensures QuantifyAll([], 1000.0) == []
    ensures var qs := QuantifyAll([Asset("ASSET1", 0.7, 100.0, NewYear), Asset("ASSET1", 0.7, 50.0, NewYear + 1)], 1000.0);
      |qs| == 2 && qs[0].quantity == 7.0 && qs[1].quantity == 14.0 && qs[1].date == NewYear + 1
  {
  }

  /** Three holdings on one day are worth 2*50 + 3*100 + 1*200 = 600. */
  lemma SameDayAggregationExample()
    ensures var p := QuantifiedPortfolio([
        QuantifiedAsset("ASSET1", 2.0, 50.0, NewYear),
        QuantifiedAsset("ASSET2", 3.0, 100.0, NewYear),
        QuantifiedAsset("ASSET3", 1.0, 200.0, NewYear)]);
      Total(p, NewYear) == 600.0 && |AssetsOn(p, NewYear)| == 3
  {
    var a := QuantifiedAsset("ASSET1", 2.0, 50.0, NewYear);
    var b := QuantifiedAsset("ASSET2", 3.0, 100.0, NewYear);
    var c := QuantifiedAsset("ASSET3", 1.0, 200.0, NewYear);
    assert SumAmounts([c]) == 200.0;
    assert SumAmounts([b, c]) == 500.0;
    OneDayPortfolio([a, b, c], NewYear);
  }

  /** A one-day range over a single holding of 10 units at 100 projects to
      that day, worth 1000, holding that asset. */
  lemma SingleDayProjectionExample()
    ensures DailyPositions(QuantifiedPortfolio([Asset1()]), NewYear, NewYear) ==
      [(NewYear, DailyPosition(1000.0, [Asset1()]))]
  {
    OneDayPortfolio([Asset1()], NewYear);
    assert [Asset1()][1..] == [];
  }

  /** Selling 300 of the holding leaves 7 units and a total of 700; selling
      1500 is refused. */
  lemma SellExample()
    ensures Sell(QuantifiedPortfolio([Asset1()]), "ASSET1", NewYear, 300.0) ==
      Success(QuantifiedPortfolio([Asset1().(quantity := 7.0)]))
    ensures Total(QuantifiedPortfolio([Asset1().(quantity := 7.0)]), NewYear) == 700.0
    ensures Sell(QuantifiedPortfolio([Asset1()]), "ASSET1", NewYear, 1500.0) ==
      Failure(InsufficientQuantity(15.0, 10.0))
  {
    SingleHoldingSell(Asset1(), 300.0);
    assert FirstMatch([Asset1()], "ASSET1", NewYear) == Some(0);
    assert AssetOn(QuantifiedPortfolio([Asset1()]), "ASSET1", NewYear) == Some(Asset1());
    SingleHoldingTotal(Asset1().(quantity := 7.0));
  }

  /** Unknown ids, other days and negative amounts are refused. */
  lemma RefusalExamples()
    ensures Sell(QuantifiedPortfolio([Asset1()]), "UNKNOWN", NewYear, 100.0) == Failure(NotFound("UNKNOWN", NewYear))
    ensures Buy(QuantifiedPortfolio([Asset1()]), "UNKNOWN", NewYear, 100.0) == Failure(NotFound("UNKNOWN", NewYear))
    ensures Buy(QuantifiedPortfolio([Asset1()]), "ASSET1", NewYear + 1, 100.0) == Failure(NotFound("ASSET1", NewYear + 1))
    ensures Sell(QuantifiedPortfolio([Asset1()]), "ASSET1", NewYear, -100.0) == Failure(NegativeAmount(-100.0))
    ensures Buy(QuantifiedPortfolio([Asset1()]), "ASSET1", NewYear, -100.0) == Failure(NegativeAmount(-100.0))
  {
  }

  /** Buying 300 of the holding adds 3 units: 13 units worth 1300. */
  lemma BuyExample()
    ensures Buy(QuantifiedPortfolio([Asset1()]), "ASSET1", NewYear, 300.0) ==
      Success(QuantifiedPortfolio([Asset1().(quantity := 13.0)]))
    ensures Total(QuantifiedPortfolio([Asset1().(quantity := 13.0)]), NewYear) == 1300.0
  {
    SingleHoldingBuy(Asset1(), 300.0);
    SingleHoldingTotal(Asset1().(quantity := 13.0));
  }

  /** Buying 200 and then 300 of the holding leaves 15 units worth 1500. */
  lemma RepeatedBuyExample()
    ensures var once := Buy(QuantifiedPortfolio([Asset1()]), "ASSET1", NewYear, 200.0);
      once.Success? && Buy(once.value, "ASSET1", NewYear, 300.0) ==
        Success(QuantifiedPortfolio([Asset1().(quantity := 15.0)]))
    ensures Total(QuantifiedPortfolio([Asset1().(quantity := 15.0)]), NewYear) == 1500.0
  {
    SingleHoldingBuy(Asset1(), 200.0);
    SingleHoldingBuy(Asset1().(quantity := 12.0), 300.0);
    SingleHoldingTotal(Asset1().(quantity := 15.0));
  }

  /** Buying 500 of ASSET1 next to ASSET2 touches only ASSET1; the day is
      then worth 15*100 + 5*200 = 2500. */
  lemma BuyBesideOtherAssetExample()
    ensures var p := QuantifiedPortfolio([Asset1(), QuantifiedAsset("ASSET2", 5.0, 200.0, NewYear)]);
      var q := QuantifiedPortfolio([Asset1().(quantity := 15.0), QuantifiedAsset("ASSET2", 5.0, 200.0, NewYear)]);
      Buy(p, "ASSET1", NewYear, 500.0) == Success(q) && Total(q, NewYear) == 2500.0
  {
    var other := QuantifiedAsset("ASSET2", 5.0, 200.0, NewYear);
    var before := [Asset1(), other];
    var q := [Asset1().(quantity := 15.0), other];
    assert FirstMatch(before, "ASSET1", NewYear) == Some(0);
    var r := Buy(QuantifiedPortfolio(before), "ASSET1", NewYear, 500.0);
    SoleChangeIsUpdate(before, r.value.assets, 0, 15.0);
    assert before[0 := Asset1().(quantity := 15.0)] == q;
    assert SumAmounts([other]) == 1000.0;
    OneDayPortfolio(q, NewYear);
  }

  /** A day holding a single holding is worth that holding's value. */
  lemma SingleHoldingDay(p: QuantifiedPortfolio, day: int, h: QuantifiedAsset)
    requires AssetsOn(p, day) == [h]
    ensures Total(p, day) == h.Amount()
  {
    assert [h][1..] == [];
    assert SumAmounts([h]) == h.Amount() + SumAmounts([]);
  }

  /** A range whose first day holds the single holding `h` projects to
      that day's entry followed by the projection of the rest. */
  lemma ProjectionFront(p: QuantifiedPortfolio, start: int, end: int, h: QuantifiedAsset)
    requires start <= end && AssetsOn(p, start) == [h]
    ensures DailyPositions(p, start, end) ==
      [(start, DailyPosition(h.Amount(), [h]))] + DailyPositions(p, start + 1, end)
  {
    SingleHoldingDay(p, start, h);
  }

  /** Three holdings on three consecutive days project to three entries
      in day order, worth 10*100, 5*200 and 3*150. */
  lemma MultiDayProjectionExample()
    ensures var a := QuantifiedAsset("ASSET1", 10.0, 100.0, NewYear);
      var b := QuantifiedAsset("ASSET2", 5.0, 200.0, NewYear + 1);
      var c := QuantifiedAsset("ASSET3", 3.0, 150.0, NewYear + 2);
      DailyPositions(QuantifiedPortfolio([a, b, c]), NewYear, NewYear + 2) ==
        [(NewYear, DailyPosition(1000.0, [a])),
         (NewYear + 1, DailyPosition(1000.0, [b])),
         (NewYear + 2, DailyPosition(450.0, [c]))]
  {
    var a := QuantifiedAsset("ASSET1", 10.0, 100.0, NewYear);
    var b := QuantifiedAsset("ASSET2", 5.0, 200.0, NewYear + 1);
    var c := QuantifiedAsset("ASSET3", 3.0, 150.0, NewYear + 2);
    var p := QuantifiedPortfolio([a, b, c]);
    assert [a, b, c][1..] == [b, c] && [b, c][1..] == [c] && [c][1..] == [];
    assert OnDay([c], NewYear) == [] && OnDay([b, c], NewYear) == [];
    assert OnDay([a, b, c], NewYear) == [a];
    assert OnDay([c], NewYear + 1) == [] && OnDay([b, c], NewYear + 1) == [b];
    assert OnDay([a, b, c], NewYear + 1) == [b];
    assert OnDay([c], NewYear + 2) == [c] && OnDay([b, c], NewYear + 2) == [c];
    assert OnDay([a, b, c], NewYear + 2) == [c];
    ProjectionFront(p, NewYear + 2, NewYear + 2, c);
    ProjectionFront(p, NewYear + 1, NewYear + 2, b);
    ProjectionFront(p, NewYear, NewYear + 2, a);
    assert DailyPositions(p, NewYear + 3, NewYear + 2) == [];
  }

  /** A January range misses a holding dated in February. */
  lemma EmptyRangeExample()
    ensures DailyPositions(QuantifiedPortfolio([Asset1().(date := NewYear + 31)]), NewYear, NewYear + 30) == []
  {
    NoHoldingsInRange(QuantifiedPortfolio([Asset1().(date := NewYear + 31)]), NewYear, NewYear + 30);
  }
}
