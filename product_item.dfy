/** ProductItem: a product a customer subscribes to, with its quantity,
 *  unit price, currency and chosen plan. A boxed Java field is an Option
 *  here; the no-argument constructor leaves quantity 1 and currency "USD". */
module ProductItems {
  import opened Common

  datatype ProductItem = ProductItem(
    productId: Option<string>,
    productName: Option<string>,
    quantity: Option<int>,
    unitPriceCents: Option<int>,
    currency: Option<string>,
    planId: Option<Uuid>,
    description: Option<string>,
    imageUrl: Option<string>,
    category: Option<string>)

  /** `new ProductItem()`: the field initialisers only. */
  function EmptyProductItem(): (r: ProductItem)
    ensures r.quantity == Some(1) && r.currency == Some("USD")
    ensures r.productId.None? && r.productName.None? && r.unitPriceCents.None? && r.planId.None?
  {
    ProductItem(None, None, Some(1), None, Some("USD"), None, None, None, None)
  }

  /** The five-argument constructor: the given fields, with the currency
   *  left at its "USD" initialiser. */
  function NewProductItem(productId: Option<string>, productName: Option<string>, quantity: Option<int>,
                          unitPriceCents: Option<int>, planId: Option<Uuid>): (r: ProductItem)
    ensures r.currency == Some("USD")
    ensures r.productId == productId && r.productName == productName && r.quantity == quantity
    ensures r.unitPriceCents == unitPriceCents && r.planId == planId
  {
    EmptyProductItem().(productId := productId, productName := productName, quantity := quantity,
                        unitPriceCents := unitPriceCents, planId := planId)
  }

  const TwoTo64: int := 0x1_0000_0000_0000_0000
  const LongMin: int := -0x8000_0000_0000_0000
  const LongMax: int := 0x7FFF_FFFF_FFFF_FFFF

  /** A 64-bit two's-complement result: the value congruent to n modulo
   *  2^64 in the range of a Java long. */
  function WrapLong(n: int): (r: int)
    ensures LongMin <= r <= LongMax
    ensures (r - n) % TwoTo64 == 0
    ensures LongMin <= n <= LongMax ==> r == n
  {
    var m := n % TwoTo64;
    if m > LongMax then m - TwoTo64 else m
  }

  /** getTotalPriceCents: quantity × unit price in long arithmetic; a
   *  missing quantity or price is unboxed as null and throws. */
  function TotalPriceCents(p: ProductItem): (r: Result<int>)
    ensures r.Success? <==> p.quantity.Some? && p.unitPriceCents.Some?
    ensures r.Success? ==> r.value == WrapLong(p.quantity.value * p.unitPriceCents.value)
  {
    if p.quantity.None? || p.unitPriceCents.None? then Failure("NullPointerException")
    else Success(WrapLong(p.quantity.value * p.unitPriceCents.value))
  }

  /** @NotBlank: present, with a character other than white space. */
  predicate NotBlank(s: Option<string>)
  {
    s.Some? && exists i :: 0 <= i < |s.value| && !IsTrimmed(s.value[i])
  }

  predicate AtMost(s: Option<string>, n: nat) { s.None? || |s.value| <= n }

  /** The bean-validation constraints on a request's product: id and name
   *  not blank and at most 255 characters, a positive quantity, a unit
   *  price present and not negative, a currency not blank and at most 3
   *  characters, and a plan id. */
  predicate ValidProductItem(p: ProductItem)
  {
    NotBlank(p.productId) && AtMost(p.productId, 255)
    && NotBlank(p.productName) && AtMost(p.productName, 255)
    && (p.quantity.None? || p.quantity.value > 0)
    && p.unitPriceCents.Some? && p.unitPriceCents.value >= 0
    && NotBlank(p.currency) && AtMost(p.currency, 3)
    && p.planId.Some?
  }

  /** The total of a product that passed validation and kept its quantity
   *  is the exact, non-negative product of quantity and price, as long as
   *  that product fits in a long. */
  lemma ValidTotalIsExact(p: ProductItem)
    requires ValidProductItem(p) && p.quantity.Some?
    requires p.quantity.value * p.unitPriceCents.value <= LongMax
    ensures TotalPriceCents(p) == Success(p.quantity.value * p.unitPriceCents.value)
    ensures TotalPriceCents(p).value >= 0
  {
    assert p.quantity.value * p.unitPriceCents.value >= 0;
  }

  /** A total past the long range wraps around, even for a product that
   *  passes validation and whose quantity fits a Java int: 2^31 - 1 units at
   *  2^33 cents come to 2^64 - 2^33 cents, reported as -2^33. */
  lemma TotalWrapsAround()
    ensures var p := ProductItem(Some("sku"), Some("name"), Some(0x7FFF_FFFF), Some(0x2_0000_0000),
                                 Some("USD"), Some("p"), None, None, None);
            ValidProductItem(p) && p.quantity.value < 0x8000_0000 &&
            TotalPriceCents(p) == Success(-0x2_0000_0000)
  {
    assert !IsTrimmed("sku"[0]) && !IsTrimmed("name"[0]) && !IsTrimmed("USD"[0]);
    assert 0x7FFF_FFFF * 0x2_0000_0000 == TwoTo64 - 0x2_0000_0000;
  }
}
