/** The two value objects of the portfolio: a target allocation (`Asset`)
    and an actual position (`QuantifiedAsset`), with the conversion from
    the first to the second. Dates are day ordinals; prices, weights,
    quantities and amounts are exact reals. */
module Holdings {

  /** A target allocation: `weight` is the intended fraction of the
      initial investment to place in asset `id` at `price` on `date`. */
  datatype Asset = Asset(id: string, weight: real, price: real, date: int)

  /** A position: `quantity` units of asset `id`, valued at `price` on `date`. */
  datatype QuantifiedAsset = QuantifiedAsset(id: string, quantity: real, price: real, date: int)
  {
    /** The monetary value of the position. */
    function Amount(): real
    {
      price * quantity
    }
  }

  /** The position that invests the asset's weighted share of
      `initialAmount` at the asset's price. The division by the price is
      unguarded (Python raises ZeroDivisionError), so a zero price is the
      caller's obligation. */
  function Quantify(a: Asset, initialAmount: real): (q: QuantifiedAsset)
    requires a.price != 0.0
    ensures q.id == a.id && q.price == a.price && q.date == a.date
    ensures q.Amount() == a.weight * initialAmount
  {
    QuantifiedAsset(a.id, a.weight * initialAmount / a.price, a.price, a.date)
  }

  /** The value of a position determines its units at a non-zero price:
      they are the value over the price. A long position at a
      non-negative price is worth at least nothing. */
  lemma AmountUnits(h: QuantifiedAsset)
    ensures h.price != 0.0 ==> h.quantity == h.Amount() / h.price
    ensures h.price >= 0.0 && h.quantity >= 0.0 ==> h.Amount() >= 0.0
  {
  }

  /** Converting a monetary `delta` into units at the position's price and
      adding (removing) them raises (lowers) the position's value by
      exactly `delta`: the conversion buy and sell rely on. */
  lemma AmountAfterDelta(h: QuantifiedAsset, delta: real)
    requires h.price != 0.0
    ensures h.(quantity := h.quantity + delta / h.price).Amount() == h.Amount() + delta
    ensures h.(quantity := h.quantity - delta / h.price).Amount() == h.Amount() - delta
  {
    assert h.price * (delta / h.price) == delta;
  }

  /** At a positive price, converting `amount` into units gives at most
      the units held exactly when the amount is at most the position's value. */
  lemma UnitsWithinHolding(h: QuantifiedAsset, amount: real)
    requires h.price > 0.0
    ensures amount / h.price <= h.quantity <==> amount <= h.Amount()
  {
    var units := amount / h.price;
    assert amount == units * h.price;
    if units <= h.quantity {
      assert (h.quantity - units) * h.price >= 0.0;
    } else {
      assert (units - h.quantity) * h.price > 0.0;
    }
  }
}
