/** Pricing of one checkout line. */
module Pricing {
  import opened Wrappers
  import opened Money

  datatype LinePricing = LinePricing(discount: int, tax: int, total: int)

  /** Percentages are in hundredths: 10000 is 100%. */
  function ComputeLinePrice(unitPrice: int, quantity: int, discountPct: Option<int>, taxRatePct: int): LinePricing {
    var subtotal := unitPrice * quantity;
    var discount := if discountPct.Some? then RoundDiv(subtotal * discountPct.value, 10000) else 0;
    var taxable := subtotal - discount;
    var tax := RoundDiv(taxable * taxRatePct, 10000);
    LinePricing(discount, tax, taxable + tax)
  }

  lemma MulMonotone(a: int, b: int, c: int)
    requires a >= 0 && b <= c
    ensures a * b <= a * c
  {
  }

  /**
   A priced line never refunds: the discount is the nearest cent to the promotion's
   percentage of the subtotal and stays within it, the tax is the nearest cent to
   its rate of what is left, and no cent is lost between subtotal, discount, tax
   and total.
   */
  lemma LinePriceIsSound(unitPrice: int, quantity: int, discountPct: Option<int>, taxRatePct: int)
    requires unitPrice >= 0 && quantity >= 0 && taxRatePct >= 0
    requires discountPct.Some? ==> 0 <= discountPct.value <= 10000
    ensures var p := ComputeLinePrice(unitPrice, quantity, discountPct, taxRatePct);
            && 0 <= p.discount <= unitPrice * quantity
            && 0 <= p.tax <= p.total
            && p.total == unitPrice * quantity - p.discount + p.tax
            && -5000 <= 10000 * p.tax - (p.total - p.tax) * taxRatePct <= 5000
            && (discountPct.None? ==> p.discount == 0)
            && (discountPct.Some? ==>
                  -5000 <= 10000 * p.discount - unitPrice * quantity * discountPct.value <= 5000)
  {
    var subtotal := unitPrice * quantity;
    MulNonNegative(unitPrice, quantity);
    var p := ComputeLinePrice(unitPrice, quantity, discountPct, taxRatePct);
    if discountPct.Some? {
      MulNonNegative(subtotal, discountPct.value);
      MulMonotone(subtotal, discountPct.value, 10000);
      RoundDivWithin(subtotal * discountPct.value, 10000, subtotal);
    }
    var taxable := subtotal - p.discount;
    MulNonNegative(taxable, taxRatePct);
    RoundDivWithin(taxable * taxRatePct, 10000, taxable * taxRatePct);
  }
}
