/** MockCommerceAdapter: the in-memory stand-in for the commerce platform.
 *  It remembers the status of every order it created in a map from the
 *  external order reference to the status. */
module MockCommerce {
  import opened Common

  datatype OrderStatus = Pending | Confirmed | Shipped | Delivered | Cancelled | Failed | Refunded

  /** The enum constant's name, as `toString` writes it. */
  function StatusName(s: OrderStatus): string
  {
    match s
    case Pending => "PENDING"
    case Confirmed => "CONFIRMED"
    case Shipped => "SHIPPED"
    case Delivered => "DELIVERED"
    case Cancelled => "CANCELLED"
    case Failed => "FAILED"
    case Refunded => "REFUNDED"
  }

  /** An order line; only its total takes part in the adapter's logic, and
   *  the boxed total may be null. */
  datatype OrderItem = OrderItem(productId: string, quantity: int, unitPriceCents: int, totalCents: Option<int>)

  /** The provider data a result carries, as far as it depends on the
   *  request (the clock readings are left out). */
  datatype ProviderData =
    | NoData
    | Created(orderTotal: int, currency: string, itemCount: nat)
    | CancelledFrom(previousStatus: string)

  datatype OrderResult = OrderResult(
    success: bool,
    externalOrderRef: Option<string>,
    status: OrderStatus,
    errorCode: Option<string>,
    errorMessage: Option<string>,
    providerData: ProviderData)

  function Succeeded(ref: string, status: OrderStatus, data: ProviderData): OrderResult
  {
    OrderResult(true, Some(ref), status, None, None, data)
  }

  /** OrderResult.failure: no reference, status FAILED, empty data. */
  function FailedResult(code: string, message: string): OrderResult
  {
    OrderResult(false, None, OrderStatus.Failed, Some(code), Some(message), NoData)
  }

  // ---------------------------------------------------------------- 64-bit sums

  const LongModulus: int := 0x1_0000_0000_0000_0000

  predicate InLong(x: int) { -0x8000_0000_0000_0000 <= x < 0x8000_0000_0000_0000 }

  /** A mathematical integer as a Java long: two's complement wrap-around. */
  function ToLong(x: int): (r: int)
    ensures InLong(r) && (r - x) % LongModulus == 0
    ensures InLong(x) ==> r == x
  {
    (x + 0x8000_0000_0000_0000) % LongModulus - 0x8000_0000_0000_0000
  }

  /** Wrapping after every addition gives the wrapped exact sum. */
  lemma ToLongAdd(a: int, b: int)
    ensures ToLong(ToLong(a) + b) == ToLong(a + b)
  {
    var k := (ToLong(a) - a) / LongModulus;
    assert ToLong(a) == a + k * LongModulus;
    assert ToLong(a) + b + 0x8000_0000_0000_0000 == (a + b + 0x8000_0000_0000_0000) + k * LongModulus;
  }

  /** Every item carries a total. */
  predicate AllTotals(items: seq<OrderItem>)
  {
    forall i :: 0 <= i < |items| ==> items[i].totalCents.Some?
  }

  /** The exact sum of the item totals. */
  function SumTotals(items: seq<OrderItem>): int
    requires AllTotals(items)
  {
    if items == [] then 0 else SumTotals(items[..|items| - 1]) + items[|items| - 1].totalCents.value
  }

  // ---------------------------------------------------------------- the operations

  /** The reference createOrder hands out: "mock_order_" and the first
   *  eight characters of a random UUID. */
  function OrderRef(randomUuid: string): string
    requires |randomUuid| >= 8
  {
    "mock_order_" + randomUuid[..8]
  }

  /** createOrder on the status map. A null item total fails the stream sum
   *  before anything is stored; otherwise the new reference is stored as
   *  CONFIRMED, and a null currency then fails the provider data, after
   *  the store. The exception's own text is `detail`. */
  function Create(m: map<string, OrderStatus>, items: seq<OrderItem>, currency: Option<string>,
                       randomUuid: string, detail: string): (r: (OrderResult, map<string, OrderStatus>))
    requires |randomUuid| >= 8
    ensures r.0.success <==> AllTotals(items) && currency.Some?
    ensures !AllTotals(items) ==> r.1 == m
    ensures AllTotals(items) ==> r.1 == m[OrderRef(randomUuid) := Confirmed]
    ensures !r.0.success ==> r.0 == FailedResult("mock_error", "Mock order creation failed: " + detail)
    ensures r.0.success ==> r.0 == Succeeded(OrderRef(randomUuid), Confirmed,
                                             Created(ToLong(SumTotals(items)), currency.value, |items|))
  {
    if !AllTotals(items) then (FailedResult("mock_error", "Mock order creation failed: " + detail), m)
    else
      var ref := OrderRef(randomUuid);
      var m1 := m[ref := Confirmed];
      if currency.None? then (FailedResult("mock_error", "Mock order creation failed: " + detail), m1)
      else (Succeeded(ref, Confirmed, Created(ToLong(SumTotals(items)), currency.value, |items|)), m1)
  }

  /** getOrderStatus: the stored status, PENDING for a reference never
   *  seen. */
  function StatusOf(m: map<string, OrderStatus>, ref: string): (r: OrderStatus)
    ensures r != Pending ==> ref in m && m[ref] == r
  {
    if ref in m then m[ref] else Pending
  }

  /** Whether a known order can still be cancelled. */
  predicate Cancelable(s: OrderStatus)
  {
    s != Shipped && s != Delivered
  }

  /** cancelOrder on the status map: unknown references and shipped or
   *  delivered orders are refused with the map unchanged; any other order
   *  becomes CANCELLED and the result reports its previous status. */
  function Cancel(m: map<string, OrderStatus>, ref: string): (r: (OrderResult, map<string, OrderStatus>))
    ensures r.0.success <==> ref in m && Cancelable(m[ref])
    ensures !r.0.success ==> r.1 == m
    ensures ref !in m ==> r.0 == FailedResult("order_not_found", "Order not found: " + ref)
    ensures ref in m && !Cancelable(m[ref]) ==>
              r.0 == FailedResult("cannot_cancel", "Cannot cancel order in status: " + StatusName(m[ref]))
    ensures r.0.success ==> r.1 == m[ref := Cancelled]
                            && r.0 == Succeeded(ref, Cancelled, CancelledFrom(StatusName(m[ref])))
  {
    if ref !in m then (FailedResult("order_not_found", "Order not found: " + ref), m)
    else if !Cancelable(m[ref]) then
      (FailedResult("cannot_cancel", "Cannot cancel order in status: " + StatusName(m[ref])), m)
    else (Succeeded(ref, Cancelled, CancelledFrom(StatusName(m[ref]))), m[ref := Cancelled])
  }

  // ---------------------------------------------------------------- properties

  /** After a create that got past the totals, the new order reads as
   *  CONFIRMED and every other reference reads as before. */
  lemma CreateStoresConfirmed(m: map<string, OrderStatus>, items: seq<OrderItem>, currency: Option<string>,
                              randomUuid: string, detail: string, other: string)
    requires |randomUuid| >= 8 && AllTotals(items)
    ensures var m1 := Create(m, items, currency, randomUuid, detail).1;
            StatusOf(m1, OrderRef(randomUuid)) == Confirmed
            && (other != OrderRef(randomUuid) ==> StatusOf(m1, other) == StatusOf(m, other))
  {
  }

  /** An order just created can be cancelled, and the cancellation reports
   *  CONFIRMED as its previous status. */
  lemma CreatedOrderCancels(m: map<string, OrderStatus>, items: seq<OrderItem>, currency: Option<string>,
                            randomUuid: string, detail: string)
    requires |randomUuid| >= 8
    requires Create(m, items, currency, randomUuid, detail).0.success
    ensures var m1 := Create(m, items, currency, randomUuid, detail).1;
            var c := Cancel(m1, OrderRef(randomUuid));
            c.0.success && c.0.providerData == CancelledFrom("CONFIRMED")
            && StatusOf(c.1, OrderRef(randomUuid)) == Cancelled
  {
  }

  /** Cancelling is idempotent on the map: a second cancel succeeds again
   *  and changes nothing more. */
  lemma CancelIdempotent(m: map<string, OrderStatus>, ref: string)
    requires Cancel(m, ref).0.success
    ensures var m1 := Cancel(m, ref).1;
            Cancel(m1, ref).0.success && Cancel(m1, ref).1 == m1
  {
  }

  /** A cancellation touches no other reference. */
  lemma CancelTouchesOnlyItsOrder(m: map<string, OrderStatus>, ref: string, other: string)
    requires other != ref
    ensures StatusOf(Cancel(m, ref).1, other) == StatusOf(m, other)
  {
  }

  /** The reported total is the sum of the item totals whenever that sum
   *  fits in a long. */
  lemma ReportedTotalIsSum(m: map<string, OrderStatus>, items: seq<OrderItem>, currency: Option<string>,
                           randomUuid: string, detail: string)
    requires |randomUuid| >= 8 && AllTotals(items) && currency.Some? && InLong(SumTotals(items))
    ensures Create(m, items, currency, randomUuid, detail).0.providerData.orderTotal == SumTotals(items)
  {
  }

  // ---------------------------------------------------------------- the adapter

  class Adapter {
    var orderStatuses: map<string, OrderStatus>

    constructor()
      ensures orderStatuses == map[]
    {
      orderStatuses := map[];
    }

    /** createOrder: sums the totals as longs, then stores and reports. */
    method CreateOrder(items: seq<OrderItem>, currency: Option<string>, randomUuid: string, detail: string)
      returns (r: OrderResult)
      requires |randomUuid| >= 8
      modifies this
      ensures (r, orderStatuses) == Create(old(orderStatuses), items, currency, randomUuid, detail)
    {
      var ref := OrderRef(randomUuid);
      var total := 0;
      var i := 0;
      while i < |items|
        invariant 0 <= i <= |items| && AllTotals(items[..i])
        invariant total == ToLong(SumTotals(items[..i]))
        invariant orderStatuses == old(orderStatuses)
      {
        if items[i].totalCents.None? {
          assert !AllTotals(items) by { assert items[i].totalCents.None?; }
          return FailedResult("mock_error", "Mock order creation failed: " + detail);
        }
        assert items[..i + 1][..i] == items[..i];
        ToLongAdd(SumTotals(items[..i]), items[i].totalCents.value);
        total := ToLong(total + items[i].totalCents.value);
        i := i + 1;
      }
      assert items[..i] == items;
      orderStatuses := orderStatuses[ref := Confirmed];
      if currency.None? {
        return FailedResult("mock_error", "Mock order creation failed: " + detail);
      }
      r := Succeeded(ref, Confirmed, Created(total, currency.value, |items|));
    }

    method CancelOrder(ref: string) returns (r: OrderResult)
      modifies this
      ensures (r, orderStatuses) == Cancel(old(orderStatuses), ref)
    {
      if ref !in orderStatuses {
        return FailedResult("order_not_found", "Order not found: " + ref);
      }
      var current := orderStatuses[ref];
      if current == Shipped || current == Delivered {
        return FailedResult("cannot_cancel", "Cannot cancel order in status: " + StatusName(current));
      }
      orderStatuses := orderStatuses[ref := Cancelled];
      r := Succeeded(ref, Cancelled, CancelledFrom(StatusName(current)));
    }
  }
}
