/**
 * Worked examples of the model on the seeded data: the `prod-6` checkout,
 * a merge in the server cart, discount validation, the `"newest"` order
 * and a search by brand.
 */
module Scenarios {
  import opened Options
  import opened Text
  import opened Catalog
  import opened Storage
  import opened CartState
  import opened Checkout

  /** The seeded `prod-6`, with the fields the model keeps. */
  function Prod6(): Product {
    Product(
      "prod-6", "vitamin-c-brightening-serum", "سرم ویتامین C روشن‌کننده", "Vitamin C Brightening Serum",
      "سرم ویتامین C با غلظت ۲۰٪ برای روشن کردن پوست و کاهش لک‌های تیره. با فرمول پایدار و جذب سریع.",
      520000, "skincare", "Glow Science", Some(4.9), Some(445), false, true, true)
  }

  /** The seeded discount codes, keyed by their code. */
  function SeedCodes(): map<string, DiscountCode> {
    map[
      "DERMA10" := DiscountCode("dc-1", "DERMA10", 10, Some(100), Some(23), Some(true)),
      "DERMA20" := DiscountCode("dc-2", "DERMA20", 20, Some(50), Some(12), Some(true)),
      "WELCOME" := DiscountCode("dc-3", "WELCOME", 15, Some(200), Some(45), Some(true))]
  }

  /** `prod-6` added twice, then "welcome" entered in the discount box: 1040000 - 156000 = 884000, shipped free. */
  lemma Prod6Checkout()
    ensures var items := AddedItems(AddedItems([], "s", Prod6(), 1, "cart_a"), "s", Prod6(), 1, "cart_b");
      && |items| == 1 && items[0].quantity == 2
      && Subtotal(items) == 1040000
      && DiscountFor("welcome") == Some(("WELCOME", 15))
      && DiscountAmount(Subtotal(items), 15) == 156000.0
      && Subtotal(items) as real - DiscountAmount(Subtotal(items), 15) == 884000.0
      && ShippingCost(884000.0) == 0.0
      && FinalTotal(884000.0) == 884000.0
  {
    var once := AddedItems([], "s", Prod6(), 1, "cart_a");
    assert once == [CartLine("cart_a", "s", "prod-6", 1, Prod6())];
    assert HasLine(once, "prod-6");
    var twice := AddedItems(once, "s", Prod6(), 1, "cart_b");
    assert twice[0] == CartLine("cart_a", "s", "prod-6", 2, Prod6());
    assert twice == [twice[0]];
    WelcomeCode();
  }

  /** The same worked example through the store objects, as the cart page drives them. */
  method Prod6CheckoutOnStore() returns (subtotal: int, discount: real, total: real, payable: real)
    ensures subtotal == 1040000 && discount == 156000.0 && total == 884000.0 && payable == 884000.0
  {
    var cart := new CartStore("sess_demo");
    cart.AddItem(Prod6(), None, "cart_a");
    cart.AddItem(Prod6(), None, "cart_b");
    HandleApplyDiscount(cart, "welcome");
    Prod6Checkout();
    subtotal := cart.GetSubtotal();
    discount := cart.GetDiscountAmount();
    total := cart.GetTotal();
    payable := Payable(cart);
  }

  /** Adding 2 and then 3 of a product in one session leaves one line of 5 in the server cart. */
  method ServerCartMerge() returns (item: CartItem, lines: nat)
    ensures item.quantity == 5 && item.productId == "prod-6" && lines == 1
  {
    var st := new MemStorage([Prod6()], SeedCodes(), []);
    var first := st.AddToCart("s1", "prod-6", Some(2));
    assert st.cartItems == [first];
    item := st.AddToCart("s1", "prod-6", Some(3));
    lines := |st.cartItems|;
  }

  /** A server-side update to quantity 0 keeps the entry: the session's cart still lists it, at 0. */
  method ServerUpdateToZero() returns (kept: bool, quantity: int)
    ensures kept && quantity == 0
  {
    var st := new MemStorage([Prod6()], SeedCodes(), []);
    var item := st.AddToCart("s1", "prod-6", None);
    var updated := st.UpdateCartQuantity(item.id, 0);
    assert st.cartItems == [updated.value];
    assert st.GetProduct("prod-6") == Some(Prod6());
    kept := (updated.value, Prod6()) in st.GetCartItems("s1");
    quantity := updated.value.quantity;
  }

  /** A seeded review is listed for its product, and the next review gets an id above every seeded one. */
  method SeededReviews() returns (listed: seq<Review>, added: Review)
    ensures listed == [Review(3, "prod-6", "Zahra N.", 5, "review", "2024-01-12")]
    ensures added.id == 4 && added.productId == "prod-6"
  {
    var seed := [Review(3, "prod-6", "Zahra N.", 5, "review", "2024-01-12")];
    var st := new MemStorage([Prod6()], SeedCodes(), seed);
    listed := st.GetProductReviews("prod-6");
    assert listed == seed by {
      assert seed[1..] == [];
    }
    assert ReviewIdBound(seed) == 4 by {
      assert seed[1..] == [];
    }
    added := st.AddReview("prod-6", "Sara M.", 4, "good", "2024-02-01");
  }

  /** Seeded codes validate whatever their case; an unknown code does not. */
  method SeededValidation() returns (lower: DiscountValidation, upper: DiscountValidation, unknown: DiscountValidation)
    ensures lower == upper == DiscountValidation(true, Some(10))
    ensures unknown == DiscountValidation(false, None)
  {
    var st := new MemStorage([Prod6()], SeedCodes(), []);
    assert Upper("derma10") == "DERMA10";
    assert Upper("DERMA10") == "DERMA10";
    assert Upper("NOPE") == "NOPE";
    lower := st.ValidateDiscountCode("derma10");
    upper := st.ValidateDiscountCode("DERMA10");
    unknown := st.ValidateDiscountCode("NOPE");
  }

  function Sample(id: string, isNew: bool): Product {
    Product(id, id, id, id, "", 100, "c", "b", None, None, isNew, false, false)
  }

  /** `"newest"` moves the new products to the front without reordering either group. */
  lemma NewestExample()
    ensures NewestFirst([Sample("A", false), Sample("B", true), Sample("C", false), Sample("D", true)]) ==
            [Sample("B", true), Sample("D", true), Sample("A", false), Sample("C", false)]
  {
    var s := [Sample("A", false), Sample("B", true), Sample("C", false), Sample("D", true)];
    assert s[1..] == [Sample("B", true), Sample("C", false), Sample("D", true)];
    assert s[2..] == [Sample("C", false), Sample("D", true)];
    assert s[3..] == [Sample("D", true)];
    assert s[4..] == [];
  }

  /** A brand typed in any case finds the product through its brand id. */
  lemma SearchByBrand()
    ensures Search([Prod6()], "glow SCIENCE") == [Prod6()]
  {
    assert Lower("glow SCIENCE") == "glow science";
    assert Lower(Prod6().brandId) == "glow science";
    assert OccursAt("glow science", Lower(Prod6().brandId), 0);
    assert [Prod6()][1..] == [];
  }
}
