/** Rounding of tax on shipments and returns. */
module Taxes {
  import opened Tables

  /** Tax due on a cumulative supply amount, rounded half up to the won. */
  function Target(tax: Tax, supply: int): int {
    match tax
    case Exempt => 0
    case Taxable(rateBps) => (supply * rateBps + 5000) / 10000
  }

  /** Share of a shipment line's tax that its first `credited` returned units take back, rounded half up.
      A shipment line has at least one unit. */
  function Share(tax: int, credited: int, quantity: int): int {
    if quantity <= 0 then 0 else (tax * credited + quantity / 2) / quantity
  }

  // ---------- arithmetic ----------

  lemma MulLeq(a: int, b: int, n: int)
    requires a <= b && n >= 0
    ensures a * n <= b * n && n * a <= n * b
  {
  }

  lemma Cancel(a: int, b: int, n: int)
    requires n > 0 && n * a < n * (b + 1)
    ensures a <= b
  {
    if a > b {
      MulLeq(b + 1, a, n);
    }
  }

  lemma DivLeq(a: int, b: int, n: int)
    requires a <= b && n > 0
    ensures a / n <= b / n
  {
    Cancel(a / n, b / n, n);
  }

  lemma DivIs(a: int, q: int, n: int)
    requires n > 0 && n * q <= a < n * q + n
    ensures a / n == q
  {
    if a / n < q {
      MulLeq(a / n + 1, q, n);
    } else if a / n > q {
      MulLeq(q + 1, a / n, n);
    }
  }

  // ---------- the target ----------

  /** A larger supply never owes less tax, so no single shipment is charged a negative tax. */
  lemma TargetGrows(tax: Tax, a: int, b: int)
    requires 0 <= a <= b
    ensures 0 <= Target(tax, a) <= Target(tax, b)
  {
    if tax.Taxable? {
      MulLeq(a, b, tax.rateBps);
      MulLeq(0, a, tax.rateBps);
    }
  }

  /** The target is the exact tax rounded to the nearest won, a half rounding up. */
  lemma TargetRounds(tax: Tax, supply: int)
    requires tax.Taxable? && supply >= 0
    ensures -5000 < 10000 * Target(tax, supply) - supply * tax.rateBps <= 5000
  {
  }

  // ---------- the share ----------

  lemma ShareGrows(tax: int, a: int, b: int, quantity: int)
    requires tax >= 0 && a <= b && quantity > 0
    ensures Share(tax, a, quantity) <= Share(tax, b, quantity)
  {
    MulLeq(a, b, tax);
    DivLeq(tax * a + quantity / 2, tax * b + quantity / 2, quantity);
  }

  lemma ShareEnds(tax: int, quantity: int)
    requires quantity > 0
    ensures Share(tax, 0, quantity) == 0
    ensures Share(tax, quantity, quantity) == tax
  {
    DivIs(quantity / 2, 0, quantity);
    DivIs(tax * quantity + quantity / 2, tax, quantity);
  }

  lemma ShareBounds(tax: int, credited: int, quantity: int)
    requires tax >= 0 && 0 <= credited <= quantity && quantity > 0
    ensures 0 <= Share(tax, credited, quantity) <= tax
  {
    ShareEnds(tax, quantity);
    ShareGrows(tax, 0, credited, quantity);
    ShareGrows(tax, credited, quantity, quantity);
  }

  /** The whole tax is taken back exactly when the tax on what is not credited yet rounds to nothing; before the
      last unit that is possible only for small taxes. */
  lemma ShareIsWhole(tax: int, credited: int, quantity: int)
    requires tax >= 0 && 0 <= credited <= quantity && quantity > 0
    ensures Share(tax, credited, quantity) == tax <==> tax * (quantity - credited) <= quantity / 2
  {
    var a := tax * credited + quantity / 2;
    assert tax * (quantity - credited) == tax * quantity - tax * credited;
    if tax * (quantity - credited) <= quantity / 2 {
      MulLeq(0, quantity - credited, tax);
      DivIs(a, tax, quantity);
    } else if a / quantity >= tax {
      MulLeq(tax, a / quantity, quantity);
    }
  }

  /** One unit short of a full return can already take the whole tax back. */
  lemma ShareCanBeEarly()
    ensures Share(1, 1, 2) == 1
  {
  }
}
