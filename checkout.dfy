/**
 * The checkout arithmetic of the cart page and the cart drawer: the
 * shipping rule, the amount payable, and the page's discount-code box,
 * which looks the upper-cased input up in a fixed table of demo codes.
 */
module Checkout {
  import opened Options
  import opened Text
  import opened CartState

  /** Orders whose total reaches this amount ship free. */
  const FreeShippingThreshold: real := 500000.0

  /** The shipping fee below the threshold. */
  const ShippingFee: real := 50000.0

  /** `total >= 500000 ? 0 : 50000` */
  function ShippingCost(total: real): (r: real)
    ensures r == 0.0 <==> total >= FreeShippingThreshold
    ensures r == 0.0 || r == ShippingFee
  {
    if total >= FreeShippingThreshold then 0.0 else ShippingFee
  }

  /** `total + shippingCost` */
  function FinalTotal(total: real): (r: real)
    ensures total >= FreeShippingThreshold ==> r == total
    ensures total < FreeShippingThreshold ==> r == total + ShippingFee
    ensures r >= total
  {
    total + ShippingCost(total)
  }

  /** The demo codes the cart page accepts and their percentages. */
  const DemoCodes: map<string, int> := map["DERMA10" := 10, "DERMA20" := 20, "WELCOME" := 15]

  /**
   * What `handleApplyDiscount` applies for `input`: nothing for a blank
   * input, nothing for a code the table lacks (or maps to a falsy 0);
   * otherwise the upper-cased input and its percentage.
   */
  function DiscountFor(input: string): (r: Option<(string, int)>)
    ensures r.Some? ==> r.value.0 in DemoCodes && r.value.1 == DemoCodes[r.value.0]
    ensures r.Some? ==> r.value.0 == Upper(input) && Upper(r.value.0) == r.value.0
    ensures IsBlank(input) ==> r.None?
    ensures !IsBlank(input) && Upper(input) in DemoCodes ==> r == Some((Upper(input), DemoCodes[Upper(input)]))
    ensures Upper(input) !in DemoCodes ==> r.None?
  {
    if IsBlank(input) then None
    else
      var key := Upper(input);
      if key in DemoCodes && DemoCodes[key] != 0 then
        UpperIdempotent(input);
        Some((key, DemoCodes[key]))
      else None
  }

  /**
   * The discount box on the cart page: the cart's discount becomes the
   * looked-up code and percentage, or stays as it was.
   */
  method HandleApplyDiscount(cart: CartStore, input: string)
    modifies cart
    ensures match DiscountFor(input)
      case None => cart.discountCode == old(cart.discountCode) && cart.discountPercent == old(cart.discountPercent)
      case Some(d) => cart.discountCode == Some(d.0) && cart.discountPercent == d.1
    ensures cart.items == old(cart.items) && cart.sessionId == old(cart.sessionId)
  {
    var d := DiscountFor(input);
    if d.Some? {
      cart.ApplyDiscount(d.value.0, d.value.1);
    }
  }

  /** The amount the cart page shows as payable. */
  function Payable(cart: CartStore): (r: real)
    reads cart
    ensures cart.GetTotal() >= FreeShippingThreshold ==> r == cart.GetTotal()
    ensures cart.GetTotal() < FreeShippingThreshold ==> r == cart.GetTotal() + ShippingFee
  {
    FinalTotal(cart.GetTotal())
  }

  // -------------------------------------------------------------- lemmas

  /** Upper-casing leaves whitespace alone and creates none, so it keeps blankness. */
  lemma UpperKeepsBlank(s: string)
    ensures IsBlank(Upper(s)) <==> IsBlank(s)
  {
    forall i | 0 <= i < |s| ensures IsWhitespace(Upper(s)[i]) <==> IsWhitespace(s[i]) {
      assert Upper(s)[i] == UpperChar(s[i]);
    }
  }

  /** The discount box ignores case: inputs that upper-case alike apply the same discount. */
  lemma DiscountForIgnoresCase(a: string, b: string)
    requires Upper(a) == Upper(b)
    ensures DiscountFor(a) == DiscountFor(b)
  {
    UpperKeepsBlank(a);
    UpperKeepsBlank(b);
  }

  /** "welcome" applies WELCOME at 15 percent. */
  lemma WelcomeCode()
    ensures DiscountFor("welcome") == Some(("WELCOME", 15))
  {
    assert Upper("welcome") == "WELCOME";
    assert !IsWhitespace("welcome"[0]);
  }

  /**
   * The payable amount is not monotone in the total: any total less than one
   * fee below the threshold pays more than a total at the threshold.
   */
  lemma PayableJumpsAtThreshold(t: real)
    requires FreeShippingThreshold - ShippingFee < t < FreeShippingThreshold
    ensures FinalTotal(t) > FinalTotal(FreeShippingThreshold)
  {
  }
}
