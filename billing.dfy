/** The bill arithmetic that the browser front end and the Flask server share:
    subtotal, then a percentage discount, then a percentage tax on what is left. */
module Billing {
  import opened Common

  /** Rate used when the discount field is empty or absent. */
  const DefaultDiscountPercent: real := 0.0
  /** Rate used when the tax (GST) field is empty or absent. */
  const DefaultTaxPercent: real := 5.0

  /** The figures of one bill. */
  datatype Totals = Totals(subtotal: real, discountAmount: real, taxable: real, taxAmount: real, total: real)

  /** `discount = subtotal * d/100; taxable = subtotal - discount; tax = taxable * g/100; total = taxable + tax`. */
  function Summarize(subtotal: real, discountPercent: real, taxPercent: real): (b: Totals)
    ensures b.subtotal == subtotal
    ensures b.discountAmount + b.taxable == subtotal
    ensures b.taxable + b.taxAmount == b.total
    ensures b.total == subtotal * (1.0 - discountPercent / 100.0) * (1.0 + taxPercent / 100.0)
  {
    var discountAmount := subtotal * (discountPercent / 100.0);
    var taxable := subtotal - discountAmount;
    var taxAmount := taxable * (taxPercent / 100.0);
    Totals(subtotal, discountAmount, taxable, taxAmount, taxable + taxAmount)
  }

  /** The bill with each rate taken from its input, or from its default when the input is absent. */
  function SummarizeWithDefaults(subtotal: real, discount: Option<real>, tax: Option<real>): (b: Totals)
    ensures discount == None ==> b.discountAmount == 0.0 && b.taxable == subtotal
    ensures discount.Some? ==> b.discountAmount == subtotal * (discount.value / 100.0)
    ensures tax == None ==> b.taxAmount == b.taxable * 0.05
    ensures tax.Some? ==> b.taxAmount == b.taxable * (tax.value / 100.0)
    ensures discount == None && tax == None ==> b.total == subtotal * 1.05
  {
    Summarize(subtotal, discount.GetOr(DefaultDiscountPercent), tax.GetOr(DefaultTaxPercent))
  }

  /** Subtotal 1000 with a 10% discount and 5% tax: discount 100, taxable 900, tax 45, total 945. */
  lemma WorkedExample()
    ensures Summarize(1000.0, 10.0, 5.0) == Totals(1000.0, 100.0, 900.0, 45.0, 945.0)
  {
  }

  /** Multiplying by a non-negative factor keeps an inequality. */
  lemma MulMonotone(x: real, a: real, b: real)
    requires x >= 0.0 && a <= b
    ensures x * a <= x * b
  {
    assert x * b - x * a == x * (b - a);
    assert x * (b - a) >= 0.0;
  }

  /** With a discount between 0% and 100% and a non-negative tax, the total is
      non-negative and at most the subtotal with tax and no discount. */
  lemma TotalBounds(subtotal: real, discountPercent: real, taxPercent: real)
    requires subtotal >= 0.0
    requires 0.0 <= discountPercent <= 100.0
    requires taxPercent >= 0.0
    ensures 0.0 <= Summarize(subtotal, discountPercent, taxPercent).total
    ensures Summarize(subtotal, discountPercent, taxPercent).total <= subtotal * (1.0 + taxPercent / 100.0)
  {
    var keep := 1.0 - discountPercent / 100.0;
    var grow := 1.0 + taxPercent / 100.0;
    assert 0.0 <= keep <= 1.0 && grow >= 0.0;
    MulMonotone(subtotal, 0.0, keep);
    assert subtotal * 0.0 == 0.0 && subtotal * 1.0 == subtotal;
    MulMonotone(subtotal, keep, 1.0);
    MulMonotone(grow, 0.0, subtotal * keep);
    MulMonotone(grow, subtotal * keep, subtotal);
    assert grow * (subtotal * keep) == subtotal * keep * grow;
    assert grow * subtotal == subtotal * grow;
  }

  /** A larger discount never gives a larger total (for a non-negative subtotal and tax). */
  lemma TotalMonotoneInDiscount(subtotal: real, d1: real, d2: real, taxPercent: real)
    requires subtotal >= 0.0 && taxPercent >= 0.0
    requires d1 <= d2
    ensures Summarize(subtotal, d2, taxPercent).total <= Summarize(subtotal, d1, taxPercent).total
  {
    var grow := 1.0 + taxPercent / 100.0;
    var k1 := 1.0 - d1 / 100.0;
    var k2 := 1.0 - d2 / 100.0;
    MulMonotone(subtotal, k2, k1);
    MulMonotone(grow, subtotal * k2, subtotal * k1);
    assert grow * (subtotal * k2) == subtotal * k2 * grow;
    assert grow * (subtotal * k1) == subtotal * k1 * grow;
  }
}
