/**
 * The order entities (Customer, Order, OrderItem, Payment), their status
 * enums, the validation rules of their `clean` methods, the order's
 * status predicates, `calculate_totals` and the line-total rule of
 * `OrderItem.save`.
 */
module OrderModels {
  import opened Wrappers
  import opened Text
  import opened Money
  import opened BaseModels

  /** A `timezone.now()` reading. */
  type Instant = int

  datatype OrderStatus = Pending | Processing | Confirmed | Completed | Cancelled | Failed | Refunded

  datatype PaymentStatus =
    | PaymentPending | PaymentProcessing | PaymentCompleted
    | PaymentFailed | PaymentRefunded | PaymentCancelled

  datatype PaymentMethod = CreditCard | DebitCard | PayPal | BankTransfer | Cash | Crypto

  /** The JSON `gateway_response` of a payment, reduced to the shapes the engine writes. */
  datatype GatewayResponse =
    | NoResponse                     // the default `{}`
    | SuccessResponse                // {'status': 'success', ...}
    | DeclinedResponse               // {'status': 'failed', ...}
    | RefundResponse(reason: string) // {'status': 'refunded', 'reason': reason}

  datatype Customer = Customer(
    id: Id,
    user: Option<Id>,
    email: string,
    fullName: string,
    phoneNumber: string,
    address: string,
    city: string,
    country: string,
    postalCode: string)

  datatype Order = Order(
    id: Id,
    customer: Id,
    orderNumber: string,
    status: OrderStatus,
    subtotal: Cents,
    taxAmount: Cents,
    shippingCost: Cents,
    totalAmount: Cents,
    notes: string,
    shippingAddress: string,
    version: int)

  datatype OrderItem = OrderItem(
    order: Id,
    productName: string,
    productSku: string,
    quantity: int,
    unitPrice: Cents,
    totalPrice: Cents)

  datatype Payment = Payment(
    order: Id,
    transactionId: string,
    paymentMethod: PaymentMethod,
    amount: Cents,
    currency: string,
    status: PaymentStatus,
    gateway: string,
    response: GatewayResponse,
    errorMessage: string,
    processedAt: Option<Instant>)

  const DefaultCountry := "Uzbekistan"
  const DefaultCurrency := "UZS"

  // ----- Customer.clean -----

  /** The phone number with every '+' and ' ' removed. */
  function RemovePlusAndSpaces(phone: string): string
  {
    if phone == [] then []
    else (if phone[0] == '+' || phone[0] == ' ' then [] else [phone[0]]) + RemovePlusAndSpaces(phone[1..])
  }

  /** Python's `str.isdigit` (ASCII digits): non-empty and every character a digit. */
  predicate IsDigitString(s: string) { |s| > 0 && AllDigits(s) }

  /** `Customer.clean`: an empty phone, or one that is digits once '+' and ' ' are removed. */
  predicate CustomerPhoneOk(phone: string)
  {
    phone == [] || IsDigitString(RemovePlusAndSpaces(phone))
  }

  predicate PhoneChar(c: char) { IsDigit(c) || c == '+' || c == ' ' }

  lemma {:induction false} RemovePlusAndSpacesDigits(phone: string)
    ensures AllDigits(RemovePlusAndSpaces(phone)) <==> forall i :: 0 <= i < |phone| ==> PhoneChar(phone[i])
    ensures |RemovePlusAndSpaces(phone)| > 0 <==> exists i :: 0 <= i < |phone| && phone[i] != '+' && phone[i] != ' '
  {
    if phone != [] {
      var rest := phone[1..];
      RemovePlusAndSpacesDigits(rest);
      var head: string := if phone[0] == '+' || phone[0] == ' ' then [] else [phone[0]];
      var r := RemovePlusAndSpaces(phone);
      assert r == head + RemovePlusAndSpaces(rest);
      if forall i :: 0 <= i < |phone| ==> PhoneChar(phone[i]) {
        assert PhoneChar(phone[0]);
        assert forall i :: 0 <= i < |rest| ==> PhoneChar(rest[i]) by {
          forall i | 0 <= i < |rest| ensures PhoneChar(rest[i]) { assert rest[i] == phone[i + 1]; }
        }
      }
      if AllDigits(r) {
        forall i | 0 <= i < |phone| ensures PhoneChar(phone[i]) {
          if i == 0 {
            if head != [] { assert r[0] == phone[0]; }
          } else {
            assert AllDigits(RemovePlusAndSpaces(rest)) by {
              forall j | 0 <= j < |RemovePlusAndSpaces(rest)| ensures IsDigit(RemovePlusAndSpaces(rest)[j]) {
                assert RemovePlusAndSpaces(rest)[j] == r[j + |head|];
              }
            }
            assert phone[i] == rest[i - 1];
          }
        }
      }
      if exists i :: 0 <= i < |phone| && phone[i] != '+' && phone[i] != ' ' {
        var i :| 0 <= i < |phone| && phone[i] != '+' && phone[i] != ' ';
        if i > 0 && head == [] { assert rest[i - 1] == phone[i]; }
      }
      if |r| > 0 {
        if head == [] {
          var i :| 0 <= i < |rest| && rest[i] != '+' && rest[i] != ' ';
          assert phone[i + 1] == rest[i];
        } else {
          assert phone[0] != '+' && phone[0] != ' ';
        }
      }
    }
  }

  /**
   * `Customer.clean` accepts a phone exactly when it is empty, or made only of
   * digits, '+' and ' ' with at least one digit (so "+", " " and "+ " fail).
   */
  lemma CustomerPhoneOkIff(phone: string)
    ensures CustomerPhoneOk(phone) <==>
      phone == [] ||
      ((forall i :: 0 <= i < |phone| ==> PhoneChar(phone[i]))
       && exists i :: 0 <= i < |phone| && IsDigit(phone[i]))
  {
    RemovePlusAndSpacesDigits(phone);
  }

  // ----- Order.clean, OrderItem.clean, Payment.clean -----

  /** `Order.clean`: the total is subtotal + tax + shipping to within one cent. */
  predicate OrderClean(o: Order)
  {
    -1 <= o.totalAmount - (o.subtotal + o.taxAmount + o.shippingCost) <= 1
  }

  /** The `MinValueValidator(0.00)` bounds on an order's four amounts. */
  predicate OrderAmountsNonNegative(o: Order)
  {
    o.subtotal >= 0 && o.taxAmount >= 0 && o.shippingCost >= 0 && o.totalAmount >= 0
  }

  /** `OrderItem.clean`: the line total is unit price times quantity to within one cent. */
  predicate LineTotalOk(unitPrice: Cents, quantity: int, totalPrice: Cents)
  {
    -1 <= totalPrice - unitPrice * quantity <= 1
  }

  predicate ItemClean(it: OrderItem)
  {
    LineTotalOk(it.unitPrice, it.quantity, it.totalPrice)
  }

  /** `Payment.clean`: a COMPLETED payment carries its processing time. */
  predicate PaymentClean(p: Payment)
  {
    p.status == PaymentCompleted ==> p.processedAt.Some?
  }

  // ----- OrderItem.save -----

  /**
   * The line total `OrderItem.save` stores: the given `total_price`, unless it
   * is missing or zero, in which case `unit_price * quantity`.
   */
  function SavedTotal(unitPrice: Cents, quantity: int, given: Option<Cents>): Cents
  {
    if given.None? || given.value == 0 then unitPrice * quantity else given.value
  }

  /**
   * `save` fills a missing or zero total with the exact line total and keeps
   * any other given total; what it stores then passes `clean` exactly when the
   * total was filled in or was already within a cent; and saving again does
   * not change it.
   */
  lemma SavedTotalSpec(unitPrice: Cents, quantity: int, given: Option<Cents>)
    ensures given.None? || given == Some(0) ==> SavedTotal(unitPrice, quantity, given) == unitPrice * quantity
    ensures given.Some? && given.value != 0 ==> SavedTotal(unitPrice, quantity, given) == given.value
    ensures LineTotalOk(unitPrice, quantity, SavedTotal(unitPrice, quantity, given)) <==>
      (given.None? || given == Some(0) || LineTotalOk(unitPrice, quantity, given.value))
    ensures SavedTotal(unitPrice, quantity, Some(SavedTotal(unitPrice, quantity, given)))
      == SavedTotal(unitPrice, quantity, given)
  {
  }

  // ----- Order.calculate_totals -----

  /** The sum of the line totals, `sum(item.total_price for item in items)`. */
  function SumTotals(items: seq<OrderItem>): Cents
  {
    if items == [] then 0 else SumTotals(items[..|items| - 1]) + items[|items| - 1].totalPrice
  }

  lemma {:induction false} SumTotalsNonNegative(items: seq<OrderItem>)
    requires forall i :: 0 <= i < |items| ==> items[i].totalPrice >= 0
    ensures SumTotals(items) >= 0
  {
    if items != [] {
      SumTotalsNonNegative(items[..|items| - 1]);
    }
  }

  lemma {:induction false} SumTotalsAppend(a: seq<OrderItem>, b: seq<OrderItem>)
    ensures SumTotals(a + b) == SumTotals(a) + SumTotals(b)
  {
    if b != [] {
      assert (a + b)[..|a + b| - 1] == a + b[..|b| - 1];
      SumTotalsAppend(a, b[..|b| - 1]);
    } else {
      assert a + b == a;
    }
  }

  /**
   * `calculate_totals` over the order's items: the subtotal is the sum of the
   * line totals, the tax is 12% of it to the nearest cent, the total is
   * subtotal + tax + shipping (so `Order.clean` accepts the result), nothing
   * else of the order changes, and non-negative lines and shipping give
   * non-negative amounts.
   */
  method CalculateTotals(o: Order, items: seq<OrderItem>) returns (r: Order)
    ensures r.subtotal == SumTotals(items)
    ensures -50 < 100 * r.taxAmount - TaxRatePercent * r.subtotal < 50
    ensures r.totalAmount == r.subtotal + r.taxAmount + o.shippingCost
    ensures r == o.(subtotal := r.subtotal, taxAmount := r.taxAmount, totalAmount := r.totalAmount)
    ensures OrderClean(r)
    ensures (forall i :: 0 <= i < |items| ==> items[i].totalPrice >= 0) && o.shippingCost >= 0
      ==> OrderAmountsNonNegative(r)
  {
    var sum := 0;
    var i := 0;
    while i < |items|
      invariant 0 <= i <= |items|
      invariant sum == SumTotals(items[..i])
    {
      assert items[..i + 1][..i] == items[..i];
      sum := sum + items[i].totalPrice;
      i := i + 1;
    }
    assert items[..|items|] == items;
    var tax := TaxCents(sum);
    TaxIsNearestCent(sum);
    if (forall k :: 0 <= k < |items| ==> items[k].totalPrice >= 0) {
      SumTotalsNonNegative(items);
      TaxBounds(sum);
    }
    r := o.(subtotal := sum, taxAmount := tax, totalAmount := sum + tax + o.shippingCost);
  }

  // ----- can_be_cancelled, can_be_refunded and the status machine -----

  /** `Order.can_be_cancelled`. */
  predicate CanBeCancelled(s: OrderStatus)
  {
    s == Pending || s == Processing || s == Confirmed
  }

  /** `Order.can_be_refunded`. */
  predicate CanBeRefunded(s: OrderStatus)
  {
    s == Completed
  }

  /**
   * The committed status changes the engine makes: payment confirms a PENDING
   * or PROCESSING order, completion follows confirmation, a refund follows
   * completion, and cancellation is open until completion.
   */
  function Successors(s: OrderStatus): set<OrderStatus>
  {
    match s
    case Pending => {Confirmed, Cancelled}
    case Processing => {Confirmed, Cancelled}
    case Confirmed => {Completed, Cancelled}
    case Completed => {Refunded}
    case Cancelled => {}
    case Failed => {}
    case Refunded => {}
  }

  /** The two status predicates are exactly the guards of the cancel and refund edges. */
  lemma GuardsMatchTransitions(s: OrderStatus)
    ensures CanBeCancelled(s) <==> Cancelled in Successors(s)
    ensures CanBeRefunded(s) <==> Refunded in Successors(s)
    ensures CanBeCancelled(s) <==> s in {Pending, Processing, Confirmed}
    ensures CanBeRefunded(s) <==> s == Completed
  {
  }

  /** How far along the lifecycle a status is. */
  function Stage(s: OrderStatus): nat
  {
    match s
    case Pending => 0
    case Processing => 0
    case Confirmed => 1
    case Completed => 2
    case Cancelled => 3
    case Failed => 3
    case Refunded => 3
  }

  /** A sequence of statuses each of which the engine can reach from the previous one. */
  predicate IsPath(p: seq<OrderStatus>)
  {
    forall i :: 0 < i < |p| ==> p[i] in Successors(p[i - 1])
  }

  /**
   * Every engine transition moves strictly forward, so a status history never
   * repeats a status and has at most three steps.
   */
  lemma {:induction false} PathMovesForward(p: seq<OrderStatus>)
    requires |p| > 0 && IsPath(p)
    ensures forall i :: 0 <= i < |p| ==> Stage(p[i]) >= Stage(p[0]) + i
    ensures |p| - 1 <= 3 - Stage(p[0])
  {
    if |p| > 1 {
      var q := p[1..];
      assert IsPath(q) by {
        forall i | 0 < i < |q| ensures q[i] in Successors(q[i - 1]) {
          assert q[i] == p[i + 1] && q[i - 1] == p[i];
        }
      }
      PathMovesForward(q);
      assert p[1] in Successors(p[0]);
      forall i | 1 <= i < |p| ensures Stage(p[i]) >= Stage(p[0]) + i {
        assert p[i] == q[i - 1];
      }
      assert Stage(p[|p| - 1]) <= 3;
    }
  }
}
