/** The quantified portfolio: holdings grouped by date, per-day valuation,
    weight, validated buy and sell, and the sparse range projection.
    The portfolio is a value; buy and sell return the updated portfolio
    or the error that Python raises for a refused trade. */
module Portfolio {
  import opened Wrappers
  import opened Holdings
  import opened DayIndex

  /** A portfolio is its list of holdings; the date index is derived from
      it (see `Index`). */
  datatype QuantifiedPortfolio = QuantifiedPortfolio(assets: seq<QuantifiedAsset>)

  /** The valuation of one day: its total value and its holdings. */
  datatype DailyPosition = DailyPosition(totalAmount: real, assets: seq<QuantifiedAsset>)

  /** The errors buy and sell raise. `ZeroPrice` stands for the division
      by a zero price that converts an amount into a quantity. */
  datatype PortfolioError =
    | NotFound(id: string, day: int)
    | NegativeAmount(amount: real)
    | ZeroPrice(id: string, day: int)
    | InsufficientQuantity(requested: real, available: real)

  /** The holdings dated `day`, in insertion order: exactly the
      portfolio's holdings that carry that date. */
  function AssetsOn(p: QuantifiedPortfolio, day: int): (r: seq<QuantifiedAsset>)
    ensures forall x {:trigger x in r} :: x in r <==> x in p.assets && x.date == day
  {
    var r := OnDay(p.assets, day);
    assert forall x :: x in r <==> x in p.assets && x.date == day by {
      forall x
        ensures x in r <==> x in p.assets && x.date == day
      {
        OnDayMembers(p.assets, day, x);
      }
    }
    r
  }

  /** The date index the portfolio builds at construction. Reading it
      with `.get(day, [])` gives the holdings of the day in insertion
      order, and it has a key exactly for the days that have holdings. */
  function Index(p: QuantifiedPortfolio): (index: map<int, seq<QuantifiedAsset>>)
    ensures forall day :: Lookup(index, day) == AssetsOn(p, day)
    ensures forall day :: day in index <==> AssetsOn(p, day) != []
  {
    BuildIndex(p.assets)
  }

  /** The sum of the values of `s`. */
  function SumAmounts(s: seq<QuantifiedAsset>): real
  {
    if s == [] then 0.0 else s[0].Amount() + SumAmounts(s[1..])
  }

  /** The total value of the holdings dated `day`; zero for a day without
      holdings. */
  function Total(p: QuantifiedPortfolio, day: int): (t: real)
    ensures OnDay(p.assets, day) == [] ==> t == 0.0
  {
    SumAmounts(AssetsOn(p, day))
  }

  /** The holding the portfolio acts on for asset `id` on `day`: the first
      holding with that id in the day's list. It is the first holding of
      the whole list with that id and day, and there is none exactly when
      no holding has that id on that day. */
  function AssetOn(p: QuantifiedPortfolio, id: string, day: int): (r: Option<QuantifiedAsset>)
    ensures r.None? <==> forall k | 0 <= k < |p.assets| :: !Matches(p.assets[k], id, day)
    ensures r.Some? ==>
      (FirstMatch(p.assets, id, day).Some? && r.value == p.assets[FirstMatch(p.assets, id, day).value])
  {
    var onDay := AssetsOn(p, day);
    FirstMatchOnDay(p.assets, id, day);
    match FirstWithId(onDay, id)
    case None => None
    case Some(j) =>
      OnDayAt(p.assets, FirstMatch(p.assets, id, day).value);
      Some(onDay[j])
  }

  /** `after` is `before` with only position `i` changed, and only in its
      quantity, which becomes `quantity`. */
  predicate SoleChange(before: seq<QuantifiedAsset>, after: seq<QuantifiedAsset>, i: nat, quantity: real)
  {
    && |after| == |before|
    && i < |before|
    && after[i] == before[i].(quantity := quantity)
    && forall k | 0 <= k < |before| && k != i :: after[k] == before[k]
  }

  /** A sole quantity change is the update of one element. */
  lemma SoleChangeIsUpdate(before: seq<QuantifiedAsset>, after: seq<QuantifiedAsset>, i: nat, quantity: real)
    requires SoleChange(before, after, i, quantity)
    ensures after == before[i := before[i].(quantity := quantity)]
  {
  }

  /** The portfolio a successful sell produces. */
  lemma SellResult(p: QuantifiedPortfolio, id: string, day: int, amount: real, i: nat)
    requires FirstMatch(p.assets, id, day) == Some(i)
    requires Sellable(p.assets[i], amount)
    ensures Sell(p, id, day, amount) ==
      Success(QuantifiedPortfolio(p.assets[i := p.assets[i].(quantity := p.assets[i].quantity - amount / p.assets[i].price)]))
  {
    var r := Sell(p, id, day, amount);
    SoleChangeIsUpdate(p.assets, r.value.assets, i, p.assets[i].quantity - amount / p.assets[i].price);
  }

  /** The portfolio a successful buy produces. */
  lemma BuyResult(p: QuantifiedPortfolio, id: string, day: int, amount: real, i: nat)
    requires FirstMatch(p.assets, id, day) == Some(i)
    requires Buyable(p.assets[i], amount)
    ensures Buy(p, id, day, amount) ==
      Success(QuantifiedPortfolio(p.assets[i := p.assets[i].(quantity := p.assets[i].quantity + amount / p.assets[i].price)]))
  {
    var r := Buy(p, id, day, amount);
    SoleChangeIsUpdate(p.assets, r.value.assets, i, p.assets[i].quantity + amount / p.assets[i].price);
  }

  /** Whether a sell of `amount` from holding `h` passes the portfolio's
      checks: non-negative, a non-zero price, and no more units than held. */
  predicate Sellable(h: QuantifiedAsset, amount: real)
  {
    amount >= 0.0 && h.price != 0.0 && amount / h.price <= h.quantity
  }

  /** Whether a buy of `amount` of holding `h` passes the portfolio's checks. */
  predicate Buyable(h: QuantifiedAsset, amount: real)
  {
    amount >= 0.0 && h.price != 0.0
  }

  /** Sell `amount` worth of asset `id` on `day`: converts the amount into
      units at the holding's price and removes them from the first holding
      of that id on that day. Fails, changing nothing, when there is no
      such holding, the amount is negative, the price is zero, or more
      units would be sold than are held. */
  function Sell(p: QuantifiedPortfolio, id: string, day: int, amount: real)
    : (r: Result<QuantifiedPortfolio, PortfolioError>)
    ensures r == Failure(NotFound(id, day)) <==>
      forall k | 0 <= k < |p.assets| :: !Matches(p.assets[k], id, day)
    ensures r.Success? <==>
      FirstMatch(p.assets, id, day).Some? && Sellable(p.assets[FirstMatch(p.assets, id, day).value], amount)
    ensures FirstMatch(p.assets, id, day).Some? && amount < 0.0 ==> r == Failure(NegativeAmount(amount))
    ensures r.Success? ==>
      var i := FirstMatch(p.assets, id, day).value;
      SoleChange(p.assets, r.value.assets, i, p.assets[i].quantity - amount / p.assets[i].price)
  {
    match AssetOn(p, id, day)
    case None => Failure(NotFound(id, day))
    case Some(target) =>
      if amount < 0.0 then Failure(NegativeAmount(amount))
      else if target.price == 0.0 then Failure(ZeroPrice(id, day))
      else
        var toSell := amount / target.price;
        if toSell > target.quantity then Failure(InsufficientQuantity(toSell, target.quantity))
        else
          var i := FirstMatch(p.assets, id, day).value;
          Success(QuantifiedPortfolio(p.assets[i := target.(quantity := target.quantity - toSell)]))
  }

  /** Buy `amount` worth of asset `id` on `day`: converts the amount into
      units at the holding's price and adds them to the first holding of
      that id on that day. Fails, changing nothing, when there is no such
      holding, the amount is negative, or the price is zero; a buy cannot
      open a new position. */
  function Buy(p: QuantifiedPortfolio, id: string, day: int, amount: real)
    : (r: Result<QuantifiedPortfolio, PortfolioError>)
    ensures r == Failure(NotFound(id, day)) <==>
      forall k | 0 <= k < |p.assets| :: !Matches(p.assets[k], id, day)
    ensures r.Success? <==>
      FirstMatch(p.assets, id, day).Some? && Buyable(p.assets[FirstMatch(p.assets, id, day).value], amount)
    ensures FirstMatch(p.assets, id, day).Some? && amount < 0.0 ==> r == Failure(NegativeAmount(amount))
    ensures r.Success? ==>
      var i := FirstMatch(p.assets, id, day).value;
      SoleChange(p.assets, r.value.assets, i, p.assets[i].quantity + amount / p.assets[i].price)
  {
    match AssetOn(p, id, day)
    case None => Failure(NotFound(id, day))
    case Some(target) =>
      if amount < 0.0 then Failure(NegativeAmount(amount))
      else if target.price == 0.0 then Failure(ZeroPrice(id, day))
      else
        var toBuy := amount / target.price;
        var i := FirstMatch(p.assets, id, day).value;
        Success(QuantifiedPortfolio(p.assets[i := target.(quantity := target.quantity + toBuy)]))
  }

  /** The share of the day's total value held in asset `id`. A missing
      holding or a zero total crashes in Python (an attribute access on
      `None`, a division by zero); both are preconditions here. */
  function Weight(p: QuantifiedPortfolio, id: string, day: int): (w: real)
    requires AssetOn(p, id, day).Some?
    requires Total(p, day) != 0.0
    ensures w * Total(p, day) == AssetOn(p, id, day).value.Amount()
  {
    AssetOn(p, id, day).value.Amount() / Total(p, day)
  }

  /** Whether the projection `r` has an entry for `day`. */
  predicate HasDay(r: seq<(int, DailyPosition)>, day: int)
  {
    exists k | 0 <= k < |r| :: r[k].0 == day
  }

  /** Every entry of `r` is a day from `start` to `end` that has
      holdings, paired with that day's total and holdings. */
  predicate Entries(p: QuantifiedPortfolio, start: int, end: int, r: seq<(int, DailyPosition)>)
  {
    forall k | 0 <= k < |r| ::
      && start <= r[k].0 <= end
      && OnDay(p.assets, r[k].0) != []
      && r[k].1 == DailyPosition(Total(p, r[k].0), OnDay(p.assets, r[k].0))
  }

  /** Every day from `start` to `end` that has holdings has an entry in `r`. */
  predicate Covers(p: QuantifiedPortfolio, start: int, end: int, r: seq<(int, DailyPosition)>)
  {
    forall day | start <= day <= end && OnDay(p.assets, day) != [] :: HasDay(r, day)
  }

  /** The days from `start` to `end` inclusive that have holdings, in
      ascending order, each with its total and its holdings. Days without
      holdings are omitted; the result is empty when `end < start`. */
  function DailyPositions(p: QuantifiedPortfolio, start: int, end: int): (r: seq<(int, DailyPosition)>)
    ensures Entries(p, start, end, r)
    ensures Ascending(r)
    ensures Covers(p, start, end, r)
    decreases end - start
  {
    if end < start then []
    else
      var rest := DailyPositions(p, start + 1, end);
      var onDay := AssetsOn(p, start);
      var entry := (start, DailyPosition(Total(p, start), onDay));
      ProjectionStep(p, start, end, rest);
      if onDay == [] then rest else [entry] + rest
  }

  /** Extending the projection of `start + 1 .. end` by day `start`: the
      day's entry goes in front when it has holdings. */
  lemma ProjectionStep(p: QuantifiedPortfolio, start: int, end: int, rest: seq<(int, DailyPosition)>)
    requires start <= end
    requires Entries(p, start + 1, end, rest) && Ascending(rest) && Covers(p, start + 1, end, rest)
    ensures var onDay := OnDay(p.assets, start);
      var r := if onDay == [] then rest else [(start, DailyPosition(Total(p, start), onDay))] + rest;
      Entries(p, start, end, r) && Ascending(r) && Covers(p, start, end, r)
  {
    var onDay := OnDay(p.assets, start);
    if onDay != [] {
      var entry := (start, DailyPosition(Total(p, start), onDay));
      var r := [entry] + rest;
      HasDayCons(entry, rest);
      AscendingCons(entry, rest);
      forall k | 0 <= k < |r|
        ensures start <= r[k].0 <= end && OnDay(p.assets, r[k].0) != []
        ensures r[k].1 == DailyPosition(Total(p, r[k].0), OnDay(p.assets, r[k].0))
      {
        if k > 0 {
          assert r[k] == rest[k - 1];
        }
      }
    }
  }

  /** Whether the days of the projection `r` strictly increase. */
  predicate Ascending(r: seq<(int, DailyPosition)>)
  {
    forall k, l | 0 <= k < l < |r| :: r[k].0 < r[l].0
  }

  /** An entry dated before every day of an ascending projection can go
      in front of it. */
  lemma AscendingCons(entry: (int, DailyPosition), rest: seq<(int, DailyPosition)>)
    requires Ascending(rest)
    requires forall k | 0 <= k < |rest| :: entry.0 < rest[k].0
    ensures Ascending([entry] + rest)
  {
    var r := [entry] + rest;
    forall k, l | 0 <= k < l < |r|
      ensures r[k].0 < r[l].0
    {
      assert r[l] == rest[l - 1];
      if k > 0 {
        assert r[k] == rest[k - 1];
      }
    }
  }

  /** Putting an entry in front of a projection keeps its days and adds
      the entry's. */
  lemma HasDayCons(entry: (int, DailyPosition), rest: seq<(int, DailyPosition)>)
    ensures HasDay([entry] + rest, entry.0)
    ensures forall day | HasDay(rest, day) :: HasDay([entry] + rest, day)
  {
    var r := [entry] + rest;
    assert r[0].0 == entry.0;
    forall day | HasDay(rest, day)
      ensures HasDay(r, day)
    {
      var k :| 0 <= k < |rest| && rest[k].0 == day;
      assert r[k + 1] == rest[k];
    }
  }
}
