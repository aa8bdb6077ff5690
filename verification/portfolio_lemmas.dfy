/** Properties that relate several portfolio operations: how buy and sell
    move the day's total, that they undo each other, that they keep
    long positions long, that they keep the date index consistent, and
    which days the range projection lists. */
module PortfolioLemmas {
  import opened Wrappers
  import opened Holdings
  import opened DayIndex
  import opened Portfolio

  /** Replacing one element changes the sum of values by the difference
      between the new and the old element's value. */
  lemma {:induction false} SumAmountsUpdate(s: seq<QuantifiedAsset>, j: nat, x: QuantifiedAsset)
    requires j < |s|
    ensures SumAmounts(s[j := x]) == SumAmounts(s) - s[j].Amount() + x.Amount()
  {
    if j > 0 {
      assert s[j := x][1..] == s[1..][j - 1 := x];
      SumAmountsUpdate(s[1..], j - 1, x);
    }
  }

  /** Changing only the quantity of holding `i` moves the total of its
      day by the change in that holding's value and leaves every other
      day's total as it was. */
  lemma TotalAfterQuantityChange(p: QuantifiedPortfolio, after: QuantifiedPortfolio, i: nat, quantity: real, day: int)
    requires SoleChange(p.assets, after.assets, i, quantity)
    ensures day == p.assets[i].date ==>
      Total(after, day) == Total(p, day) - p.assets[i].Amount() + after.assets[i].Amount()
    ensures day != p.assets[i].date ==> Total(after, day) == Total(p, day)
  {
    var x := p.assets[i].(quantity := quantity);
    SoleChangeIsUpdate(p.assets, after.assets, i, quantity);
    UpdateOnDay(p.assets, i, x, day);
    if day == x.date {
      SumAmountsUpdate(OnDay(p.assets, day), |OnDay(p.assets[..i], day)|, x);
      OnDayAt(p.assets, i);
    }
  }

  /** A successful sell lowers the total of its day by exactly the amount
      sold and leaves every other day's total unchanged. */
  lemma SellMovesTotal(p: QuantifiedPortfolio, id: string, day: int, amount: real, other: int)
    requires Sell(p, id, day, amount).Success?
    ensures Total(Sell(p, id, day, amount).value, day) == Total(p, day) - amount
    ensures other != day ==> Total(Sell(p, id, day, amount).value, other) == Total(p, other)
  {
    var i := FirstMatch(p.assets, id, day).value;
    var h := p.assets[i];
    var q := h.quantity - amount / h.price;
    var after := QuantifiedPortfolio(p.assets[i := h.(quantity := q)]);
    SellResult(p, id, day, amount, i);
    TotalAfterQuantityChange(p, after, i, q, day);
    TotalAfterQuantityChange(p, after, i, q, other);
    AmountAfterDelta(h, amount);
    assert after.assets[i].Amount() == h.Amount() - amount;
  }

  /** A successful buy raises the total of its day by exactly the amount
      bought and leaves every other day's total unchanged. */
  lemma BuyMovesTotal(p: QuantifiedPortfolio, id: string, day: int, amount: real, other: int)
    requires Buy(p, id, day, amount).Success?
    ensures Total(Buy(p, id, day, amount).value, day) == Total(p, day) + amount
    ensures other != day ==> Total(Buy(p, id, day, amount).value, other) == Total(p, other)
  {
    var i := FirstMatch(p.assets, id, day).value;
    var h := p.assets[i];
    var q := h.quantity + amount / h.price;
    var after := QuantifiedPortfolio(p.assets[i := h.(quantity := q)]);
    BuyResult(p, id, day, amount, i);
    TotalAfterQuantityChange(p, after, i, q, day);
    TotalAfterQuantityChange(p, after, i, q, other);
    AmountAfterDelta(h, amount);
    assert after.assets[i].Amount() == h.Amount() + amount;
  }

  /** At a positive price, a sell succeeds exactly when the amount lies
      between zero and the holding's value; selling more than the value
      is refused as an insufficient quantity. */
  lemma SellBound(p: QuantifiedPortfolio, id: string, day: int, amount: real)
    requires FirstMatch(p.assets, id, day).Some?
    requires p.assets[FirstMatch(p.assets, id, day).value].price > 0.0
    ensures var h := p.assets[FirstMatch(p.assets, id, day).value];
      Sell(p, id, day, amount).Success? <==> 0.0 <= amount <= h.Amount()
    ensures var h := p.assets[FirstMatch(p.assets, id, day).value];
      0.0 <= amount && h.Amount() < amount ==>
        (Sell(p, id, day, amount).Failure? && Sell(p, id, day, amount).error.InsufficientQuantity?)
  {
    var h := p.assets[FirstMatch(p.assets, id, day).value];
    UnitsWithinHolding(h, amount);
    assert AssetOn(p, id, day) == Some(h);
  }

  /** Selling a long holding's whole value at a positive price succeeds
      and leaves it with no units: the quantity check is strict. */
  lemma SellEverything(p: QuantifiedPortfolio, id: string, day: int)
    requires FirstMatch(p.assets, id, day).Some?
    requires p.assets[FirstMatch(p.assets, id, day).value].price > 0.0
    requires p.assets[FirstMatch(p.assets, id, day).value].quantity >= 0.0
    ensures var i := FirstMatch(p.assets, id, day).value;
      var amount := p.assets[i].Amount();
      Sell(p, id, day, amount).Success? && Sell(p, id, day, amount).value.assets[i].quantity == 0.0
  {
    var i := FirstMatch(p.assets, id, day).value;
    var h := p.assets[i];
    assert h.Amount() / h.price == h.quantity;
  }

  /** Buying nothing of an existing holding with a non-zero price succeeds
      and changes nothing. */
  lemma BuyNothing(p: QuantifiedPortfolio, id: string, day: int)
    requires FirstMatch(p.assets, id, day).Some?
    requires p.assets[FirstMatch(p.assets, id, day).value].price != 0.0
    ensures Buy(p, id, day, 0.0) == Success(p)
  {
    var i := FirstMatch(p.assets, id, day).value;
    assert Buy(p, id, day, 0.0).value.assets == p.assets;
  }

  /** Changing the quantity of the first match leaves it the first match. */
  lemma FirstMatchStable(s: seq<QuantifiedAsset>, id: string, day: int, quantity: real)
    requires FirstMatch(s, id, day).Some?
    ensures var i := FirstMatch(s, id, day).value;
      FirstMatch(s[i := s[i].(quantity := quantity)], id, day) == Some(i)
  {
    var i := FirstMatch(s, id, day).value;
    var s' := s[i := s[i].(quantity := quantity)];
    assert Matches(s'[i], id, day);
  }

  /** Selling an amount and then buying the same amount back restores the
      portfolio. */
  lemma SellThenBuy(p: QuantifiedPortfolio, id: string, day: int, amount: real)
    requires Sell(p, id, day, amount).Success?
    ensures Buy(Sell(p, id, day, amount).value, id, day, amount) == Success(p)
  {
    var i := FirstMatch(p.assets, id, day).value;
    var h := p.assets[i];
    var q := h.quantity - amount / h.price;
    var sold := QuantifiedPortfolio(p.assets[i := h.(quantity := q)]);
    SellResult(p, id, day, amount, i);
    assert Sell(p, id, day, amount).value == sold;
    FirstMatchStable(p.assets, id, day, q);
    BuyResult(sold, id, day, amount, i);
    assert sold.assets[i].(quantity := sold.assets[i].quantity + amount / sold.assets[i].price) == h;
    assert sold.assets[i := h] == p.assets;
  }

  /** Buying an amount of a long holding and then selling the same amount
      restores the portfolio. */
  lemma BuyThenSell(p: QuantifiedPortfolio, id: string, day: int, amount: real)
    requires Buy(p, id, day, amount).Success?
    requires p.assets[FirstMatch(p.assets, id, day).value].quantity >= 0.0
    ensures Sell(Buy(p, id, day, amount).value, id, day, amount) == Success(p)
  {
    var i := FirstMatch(p.assets, id, day).value;
    var h := p.assets[i];
    var q := h.quantity + amount / h.price;
    var bought := QuantifiedPortfolio(p.assets[i := h.(quantity := q)]);
    BuyResult(p, id, day, amount, i);
    assert Buy(p, id, day, amount).value == bought;
    FirstMatchStable(p.assets, id, day, q);
    assert Sellable(bought.assets[i], amount);
    SellResult(bought, id, day, amount, i);
    assert bought.assets[i].(quantity := bought.assets[i].quantity - amount / bought.assets[i].price) == h;
    assert bought.assets[i := h] == p.assets;
  }

  /** No holding with a positive price has a negative quantity. */
  predicate NoShortPositions(p: QuantifiedPortfolio)
  {
    forall k | 0 <= k < |p.assets| :: p.assets[k].price > 0.0 ==> p.assets[k].quantity >= 0.0
  }

  /** A successful sell keeps every positively priced holding long. */
  lemma SellKeepsLong(p: QuantifiedPortfolio, id: string, day: int, amount: real)
    requires NoShortPositions(p)
    requires Sell(p, id, day, amount).Success?
    ensures NoShortPositions(Sell(p, id, day, amount).value)
  {
    var i := FirstMatch(p.assets, id, day).value;
    var h := p.assets[i];
    var after := p.assets[i := h.(quantity := h.quantity - amount / h.price)];
    SellResult(p, id, day, amount, i);
    forall k | 0 <= k < |after| && after[k].price > 0.0
      ensures after[k].quantity >= 0.0
    {
      if k == i {
        assert amount / h.price <= h.quantity;
      }
    }
  }

  /** A successful buy keeps every positively priced holding long. */
  lemma BuyKeepsLong(p: QuantifiedPortfolio, id: string, day: int, amount: real)
    requires NoShortPositions(p)
    requires Buy(p, id, day, amount).Success?
    ensures NoShortPositions(Buy(p, id, day, amount).value)
  {
    var i := FirstMatch(p.assets, id, day).value;
    var h := p.assets[i];
    var after := p.assets[i := h.(quantity := h.quantity + amount / h.price)];
    BuyResult(p, id, day, amount, i);
    forall k | 0 <= k < |after| && after[k].price > 0.0
      ensures after[k].quantity >= 0.0
    {
      if k == i {
        assert amount / h.price >= 0.0;
      }
    }
  }

  /** After a successful sell, the index rebuilt from the holdings equals
      the original index with the holding found through it (the first of
      that id in the day's list) updated in place. */
  lemma SellKeepsIndex(p: QuantifiedPortfolio, id: string, day: int, amount: real)
    requires Sell(p, id, day, amount).Success?
    ensures FirstWithId(AssetsOn(p, day), id).Some?
    ensures var j := FirstWithId(AssetsOn(p, day), id).value;
      var i := FirstMatch(p.assets, id, day).value;
      var after := Sell(p, id, day, amount).value;
      j < |Lookup(Index(p), day)| &&
      Index(after) == Index(p)[day := Lookup(Index(p), day)[j := after.assets[i]]]
  {
    var i := FirstMatch(p.assets, id, day).value;
    var after := Sell(p, id, day, amount).value;
    FirstMatchOnDay(p.assets, id, day);
    assert after.assets == p.assets[i := after.assets[i]];
    IndexAfterUpdate(p.assets, i, after.assets[i]);
  }

  /** After a successful buy, the index rebuilt from the holdings equals
      the original index with the holding found through it updated in
      place. */
  lemma BuyKeepsIndex(p: QuantifiedPortfolio, id: string, day: int, amount: real)
    requires Buy(p, id, day, amount).Success?
    ensures FirstWithId(AssetsOn(p, day), id).Some?
    ensures var j := FirstWithId(AssetsOn(p, day), id).value;
      var i := FirstMatch(p.assets, id, day).value;
      var after := Buy(p, id, day, amount).value;
      j < |Lookup(Index(p), day)| &&
      Index(after) == Index(p)[day := Lookup(Index(p), day)[j := after.assets[i]]]
  {
    var i := FirstMatch(p.assets, id, day).value;
    var after := Buy(p, id, day, amount).value;
    FirstMatchOnDay(p.assets, id, day);
    assert after.assets == p.assets[i := after.assets[i]];
    IndexAfterUpdate(p.assets, i, after.assets[i]);
  }

  /** No holding dated `day` is worth less than nothing. */
  predicate NonNegativeOn(p: QuantifiedPortfolio, day: int)
  {
    forall k | 0 <= k < |p.assets| :: p.assets[k].date == day ==> p.assets[k].Amount() >= 0.0
  }

  /** A sum of non-negative values is non-negative and at least each of
      its terms. */
  lemma {:induction false} SumAmountsBounds(s: seq<QuantifiedAsset>, k: nat)
    requires forall j | 0 <= j < |s| :: s[j].Amount() >= 0.0
    ensures 0.0 <= SumAmounts(s)
    ensures k < |s| ==> s[k].Amount() <= SumAmounts(s)
  {
    if s != [] {
      SumAmountsBounds(s[1..], if k > 0 then k - 1 else 0);
    }
  }

  /** A part between nothing and a positive whole is a share between 0 and 1. */
  lemma ShareBounds(a: real, t: real)
    requires 0.0 <= a <= t && t != 0.0
    ensures 0.0 <= a / t <= 1.0
  {
    var w := a / t;
    assert w * t == a;
    assert (w - 1.0) * t == a - t;
  }

  /** On a day where no holding is worth less than nothing, every
      holding of the day is worth between nothing and the day's total. */
  lemma WithinTotal(p: QuantifiedPortfolio, i: nat)
    requires i < |p.assets|
    requires NonNegativeOn(p, p.assets[i].date)
    ensures 0.0 <= p.assets[i].Amount() <= Total(p, p.assets[i].date)
  {
    var day := p.assets[i].date;
    var s := AssetsOn(p, day);
    OnDayAt(p.assets, i);
    forall j | 0 <= j < |s|
      ensures s[j].Amount() >= 0.0
    {
      assert s[j] in s;
      var k :| 0 <= k < |p.assets| && p.assets[k] == s[j];
    }
    SumAmountsBounds(s, |OnDay(p.assets[..i], day)|);
  }

  /** On a day where no holding is worth less than nothing, a weight is a
      share of the day's value: between 0 and 1. */
  lemma WeightBounds(p: QuantifiedPortfolio, id: string, day: int)
    requires AssetOn(p, id, day).Some? && Total(p, day) != 0.0
    requires NonNegativeOn(p, day)
    ensures 0.0 <= Weight(p, id, day) <= 1.0
  {
    var i := FirstMatch(p.assets, id, day).value;
    WithinTotal(p, i);
    ShareBounds(p.assets[i].Amount(), Total(p, day));
  }

  /** The sum of the shares of `s`'s values in a total `t`. */
  function SumShares(s: seq<QuantifiedAsset>, t: real): real
    requires t != 0.0
  {
    if s == [] then 0.0 else s[0].Amount() / t + SumShares(s[1..], t)
  }

  /** Adding up the shares is sharing out the sum. */
  lemma {:induction false} SumSharesOfSum(s: seq<QuantifiedAsset>, t: real)
    requires t != 0.0
    ensures SumShares(s, t) * t == SumAmounts(s)
  {
    if s != [] {
      SumSharesOfSum(s[1..], t);
      var a := s[0].Amount();
      assert (a / t + SumShares(s[1..], t)) * t == a / t * t + SumShares(s[1..], t) * t;
    }
  }

  /** The shares of the parts of a non-zero whole add up to 1. */
  lemma SharesOfWhole(s: seq<QuantifiedAsset>, t: real)
    requires t != 0.0 && SumAmounts(s) == t
    ensures SumShares(s, t) == 1.0
  {
    SumSharesOfSum(s, t);
    var x := SumShares(s, t);
    assert x * t == t;
    assert x == x * t / t;
  }

  /** No two holdings of `s` carry the same id. */
  predicate DistinctIds(s: seq<QuantifiedAsset>)
  {
    forall k, l | 0 <= k < l < |s| :: s[k].id != s[l].id
  }

  /** On a day whose holdings carry distinct ids and whose total is not
      zero, each holding's weight is its share of the day's value, and
      these shares add up to 1. */
  lemma WeightsSumToOne(p: QuantifiedPortfolio, day: int)
    requires Total(p, day) != 0.0
    requires DistinctIds(AssetsOn(p, day))
    ensures forall k | 0 <= k < |AssetsOn(p, day)| ::
      && AssetOn(p, AssetsOn(p, day)[k].id, day) == Some(AssetsOn(p, day)[k])
      && Weight(p, AssetsOn(p, day)[k].id, day) == AssetsOn(p, day)[k].Amount() / Total(p, day)
    ensures SumShares(AssetsOn(p, day), Total(p, day)) == 1.0
  {
    var s := AssetsOn(p, day);
    var t := Total(p, day);
    forall k | 0 <= k < |s|
      ensures AssetOn(p, s[k].id, day) == Some(s[k])
    {
      var r := FirstWithId(s, s[k].id);
      assert r.Some?;
      assert r.value == k;
    }
    SharesOfWhole(s, t);
  }

  /** The days the range projection lists are exactly the days of the
      inclusive range that have holdings. */
  lemma DailyPositionDays(p: QuantifiedPortfolio, start: int, end: int, day: int)
    ensures HasDay(DailyPositions(p, start, end), day) <==>
      start <= day <= end && exists k | 0 <= k < |p.assets| :: p.assets[k].date == day
  {
    var r := DailyPositions(p, start, end);
    if start <= day <= end && exists k | 0 <= k < |p.assets| :: p.assets[k].date == day {
      var k :| 0 <= k < |p.assets| && p.assets[k].date == day;
      OnDayMembers(p.assets, day, p.assets[k]);
    }
    if HasDay(r, day) {
      var k :| 0 <= k < |r| && r[k].0 == day;
      var h := OnDay(p.assets, day)[0];
      OnDayMembers(p.assets, day, h);
    }
  }

  /** A range in which no holding falls projects to nothing. */
  lemma NoHoldingsInRange(p: QuantifiedPortfolio, start: int, end: int)
    requires forall k | 0 <= k < |p.assets| :: p.assets[k].date < start || p.assets[k].date > end
    ensures DailyPositions(p, start, end) == []
  {
    var r := DailyPositions(p, start, end);
    if r != [] {
      var d := r[0].0;
      assert HasDay(r, d);
      DailyPositionDays(p, start, end, d);
      assert false;
    }
  }
}
