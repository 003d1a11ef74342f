/**
 * The order lifecycle engine (`OrderService`): order creation, payment,
 * cancellation, refund and completion over a store of customers, orders,
 * line items and payments. Each operation runs inside one database
 * transaction: it either commits all its writes or raises and leaves the
 * store as it found it. The row locks the source takes are not modelled: in
 * this sequential model every call already runs alone.
 */
module OrderService {
  import opened Wrappers
  import opened Text
  import opened Money
  import opened Identifiers
  import opened BaseModels
  import opened OrderModels
  import UserModels

  /** The engine's exceptions, one per message it raises. */
  datatype Error =
    | CustomerNotFound                    // "Customer not found"
    | CustomerDataRequired                // "Customer data required"
    | CustomerFieldMissing                // "Order creation failed: ...": a guest field is None, breaking NOT NULL
    | NoItems                             // "At least one order item is required"
    | QuantityRejected                    // "Order creation failed: ...": an item row breaks CHECK ("quantity" >= 0)
    | OrderNotFound                       // "Order not found"
    | CannotProcess(status: OrderStatus)  // "Order cannot be processed in current status"
    | NoPendingPayment                    // "No pending payment found for this order"
    | PaymentDeclined                     // "Payment processing failed"
    | CannotCancel(status: OrderStatus)   // "Order cannot be cancelled in current status"
    | CannotRefund(status: OrderStatus)   // "Order cannot be refunded in current status"
    | RefundExceedsTotal                  // "Refund amount cannot exceed order total"
    | NoCompletedPayment                  // "No completed payment found for this order"
    | NotConfirmed                        // "Only confirmed orders can be completed"
    | Conflict                            // a unique column (key, order number, transaction id, customer's user) is taken

  /** One entry of `items_data`. */
  datatype ItemInput = ItemInput(productName: string, productSku: string, quantity: int, unitPrice: Cents)

  /**
   * `customer_data` for a guest checkout: each field may be absent (`None`),
   * since the request leaves them optional.
   */
  datatype CustomerDraft = CustomerDraft(email: Option<string>, name: Option<string>, phone: Option<string>)

  /** Every field the customer table stores as NOT NULL is present. */
  predicate DraftComplete(d: CustomerDraft)
  {
    d.email.Some? && d.name.Some? && d.phone.Some?
  }

  /** The clock reading and `uuid4().hex` one generated identifier is made from. */
  datatype IdSeed = IdSeed(clock: DateTime, uuidHex: string)

  predicate ValidSeed(s: IdSeed) { ValidClock(s.clock) && IsUuidHex(s.uuidHex) }

  function OrderNumberOf(s: IdSeed): string requires ValidSeed(s) { OrderNumber(s.clock, s.uuidHex) }

  function TransactionIdOf(s: IdSeed): string requires ValidSeed(s) { TransactionId(s.clock, s.uuidHex) }

  /** The bounds the request serializer puts on an item before the engine sees it. */
  predicate ValidItemInput(it: ItemInput) { it.quantity >= 1 && it.unitPrice >= 1 }

  /**
   * Every quantity passes the `CHECK ("quantity" >= 0)` the database puts on
   * the positive-integer column `OrderItem.quantity`.
   */
  predicate QuantitiesStorable(inputs: seq<ItemInput>)
  {
    forall i :: 0 <= i < |inputs| ==> inputs[i].quantity >= 0
  }

  /** The row `OrderItem.objects.create` stores for one input (its `save` keeps the given line total). */
  function NewItem(order: Id, it: ItemInput): OrderItem
  {
    OrderItem(order, it.productName, it.productSku, it.quantity, it.unitPrice,
              SavedTotal(it.unitPrice, it.quantity, Some(it.unitPrice * it.quantity)))
  }

  /** One row per input, in input order, each for `order` and each with total = unit price * quantity. */
  function NewItems(order: Id, inputs: seq<ItemInput>): (r: seq<OrderItem>)
    ensures |r| == |inputs|
    ensures forall i :: 0 <= i < |r| ==>
      && r[i].order == order && r[i].productName == inputs[i].productName
      && r[i].productSku == inputs[i].productSku
      && r[i].quantity == inputs[i].quantity && r[i].unitPrice == inputs[i].unitPrice
      && r[i].totalPrice == r[i].unitPrice * r[i].quantity
  {
    seq(|inputs|, i requires 0 <= i < |inputs| => NewItem(order, inputs[i]))
  }

  /** The customer a guest checkout creates. */
  function NewCustomer(id: Id, principal: Option<Id>, d: CustomerDraft): Customer
    requires DraftComplete(d)
  {
    Customer(id, principal, d.email.value, d.name.value, d.phone.value, "", "", DefaultCountry, "")
  }

  /** The customer profile `get_or_create_customer_from_user` creates for a user. */
  function CustomerForUser(id: Id, u: UserModels.User): Customer
  {
    var email := if u.email.Some? && u.email.value != "" then u.email.value else u.phoneNumber + "@placeholder.com";
    Customer(id, Some(u.pk), email, UserModels.FullName(u), u.phoneNumber, "", "", DefaultCountry, "")
  }

  /** `order.items.all()`: the rows of `order`, in creation order. */
  function ItemsOf(items: seq<OrderItem>, order: Id): (r: seq<OrderItem>)
    ensures forall i :: 0 <= i < |r| ==> r[i].order == order
  {
    if items == [] then []
    else ItemsOf(items[..|items| - 1], order)
         + (if items[|items| - 1].order == order then [items[|items| - 1]] else [])
  }

  lemma {:induction false} ItemsOfAppend(a: seq<OrderItem>, b: seq<OrderItem>, order: Id)
    ensures ItemsOf(a + b, order) == ItemsOf(a, order) + ItemsOf(b, order)
  {
    if b == [] {
      assert a + b == a;
    } else {
      assert (a + b)[..|a + b| - 1] == a + b[..|b| - 1];
      ItemsOfAppend(a, b[..|b| - 1], order);
    }
  }

  lemma {:induction false} ItemsOfOnly(items: seq<OrderItem>, order: Id)
    ensures (forall i :: 0 <= i < |items| ==> items[i].order != order) ==> ItemsOf(items, order) == []
    ensures (forall i :: 0 <= i < |items| ==> items[i].order == order) ==> ItemsOf(items, order) == items
  {
    if items != [] {
      ItemsOfOnly(items[..|items| - 1], order);
    }
  }

  /**
   * `Payment.objects.filter(order=order, status=status).first()` under the
   * ordering `-created_at`: the newest matching payment, i.e. the last match
   * in creation order.
   */
  function NewestIndex(ps: seq<Payment>, order: Id, status: PaymentStatus): (r: Option<nat>)
    ensures r.Some? ==>
      && r.value < |ps| && ps[r.value].order == order && ps[r.value].status == status
      && forall j :: r.value < j < |ps| ==> !(ps[j].order == order && ps[j].status == status)
    ensures r.None? ==> forall j :: 0 <= j < |ps| ==> !(ps[j].order == order && ps[j].status == status)
  {
    if ps == [] then None
    else if ps[|ps| - 1].order == order && ps[|ps| - 1].status == status then Some(|ps| - 1)
    else NewestIndex(ps[..|ps| - 1], order, status)
  }

  predicate IsOpen(p: Payment) { p.status == PaymentPending || p.status == PaymentProcessing }

  const CancelledMessage := "Order cancelled"

  /** The bulk `update` of `cancel_order`: the order's PENDING and PROCESSING payments become CANCELLED. */
  function CancelOpenPayments(ps: seq<Payment>, order: Id): seq<Payment>
  {
    seq(|ps|, i requires 0 <= i < |ps| =>
      if ps[i].order == order && IsOpen(ps[i])
      then ps[i].(status := PaymentCancelled, errorMessage := CancelledMessage)
      else ps[i])
  }

  /**
   * After the bulk update no payment of the order is open, every open payment
   * of the order became CANCELLED with the fixed message and nothing else
   * about it changed, and every other payment is untouched.
   */
  lemma CancelOpenPaymentsSpec(ps: seq<Payment>, order: Id)
    ensures |CancelOpenPayments(ps, order)| == |ps|
    ensures forall i :: 0 <= i < |ps| && ps[i].order == order ==> !IsOpen(CancelOpenPayments(ps, order)[i])
    ensures forall i :: 0 <= i < |ps| && ps[i].order == order && IsOpen(ps[i]) ==>
      CancelOpenPayments(ps, order)[i] == ps[i].(status := PaymentCancelled, errorMessage := CancelledMessage)
    ensures forall i :: 0 <= i < |ps| && !(ps[i].order == order && IsOpen(ps[i])) ==>
      CancelOpenPayments(ps, order)[i] == ps[i]
  {
  }

  /**
   * `cancel_order`'s note: the notes are kept, and the reason is appended
   * only when it is non-empty.
   */
  function CancelNotes(notes: string, reason: string): (r: string)
    ensures reason == "" ==> r == notes
    ensures reason != "" ==> |r| > |notes| + |reason| && r[..|notes|] == notes && r[|r| - |reason|..] == reason
  {
    if reason != "" then notes + "\nCancellation reason: " + reason else notes
  }

  /** `refund_order`'s note: the notes are kept, and the reason and the amount are always appended. */
  function RefundNotes(notes: string, reason: string, refund: Cents): string
  {
    notes + "\nRefund reason: " + reason + "\nRefund amount: " + FormatCents(refund)
  }

  /**
   * A refund note keeps the old notes in front, is longer than the old notes and the reason
   * together, and the amount at its end reads back as exactly the amount refunded.
   */
  lemma RefundNoteReadsBack(notes: string, reason: string, refund: Cents)
    ensures var r := RefundNotes(notes, reason, refund);
      && |r| > |notes| + |reason| && r[..|notes|] == notes
      && ParseCents(r[|r| - |FormatCents(refund)|..]) == Some(refund)
  {
    var r := RefundNotes(notes, reason, refund);
    assert r[|r| - |FormatCents(refund)|..] == FormatCents(refund);
    FormatCentsRoundTrip(refund);
  }

  /** `amount if amount else order.total_amount`: no amount, or zero, means a full refund. */
  function RefundAmount(amount: Option<Cents>, total: Cents): (r: Cents)
    ensures amount.Some? && amount.value != 0 ==> r == amount.value
    ensures amount.None? || amount == Some(0) ==> r == total
    ensures r == 0 ==> total == 0
  {
    if amount.Some? && amount.value != 0 then amount.value else total
  }

  /** The refund row: the negated amount, with the completed payment's method, currency and gateway. */
  function RefundPayment(order: Id, txn: string, paid: Payment, refund: Cents, reason: string, now: Instant): Payment
  {
    Payment(order, txn, paid.paymentMethod, -refund, paid.currency, PaymentRefunded,
            paid.gateway, RefundResponse(reason), "", Some(now))
  }

  /** The database's own constraints: primary keys, foreign keys and unique columns. */
  ghost predicate StoreValid(cs: map<Id, Customer>, os: map<Id, Order>, its: seq<OrderItem>, ps: seq<Payment>)
  {
    && (forall c :: c in cs ==> cs[c].id == c)
    && (forall c, d :: c in cs && d in cs && c != d && cs[c].user.Some? ==> cs[c].user != cs[d].user)
    && (forall o :: o in os ==> os[o].id == o && os[o].customer in cs)
    && (forall o, q :: o in os && q in os && o != q ==> os[o].orderNumber != os[q].orderNumber)
    && (forall i :: 0 <= i < |its| ==> its[i].order in os)
    && (forall i :: 0 <= i < |ps| ==> ps[i].order in os)
    && (forall i, j :: 0 <= i < j < |ps| ==> ps[i].transactionId != ps[j].transactionId)
  }

  /**
   * What the models' `clean` methods and amount validators demand: order
   * totals add up and match the order's items, amounts are non-negative,
   * line totals match, completed payments carry a processing time.
   */
  ghost predicate StoreClean(os: map<Id, Order>, its: seq<OrderItem>, ps: seq<Payment>)
  {
    && (forall o :: o in os ==>
          OrderClean(os[o]) && OrderAmountsNonNegative(os[o]) && os[o].subtotal == SumTotals(ItemsOf(its, o)))
    && (forall i :: 0 <= i < |its| ==> ItemClean(its[i]) && its[i].quantity >= 1 && its[i].totalPrice >= 0)
    && (forall i :: 0 <= i < |ps| ==> PaymentClean(ps[i]))
  }

  /**
   * Statuses and versions the engine commits: PROCESSING and FAILED are
   * written only inside a transaction that then overwrites or rolls them
   * back, and an order is created at version 0 and gains one version per
   * committed step forward, so its version never exceeds its stage.
   */
  ghost predicate StoreStatuses(os: map<Id, Order>)
  {
    forall o :: o in os ==>
      && os[o].status != Processing && os[o].status != Failed
      && 0 <= os[o].version <= Stage(os[o].status)
  }

  /** No committed order has a version above three: each is changed at most three times. */
  lemma VersionsBounded(os: map<Id, Order>)
    requires StoreStatuses(os)
    ensures forall o :: o in os ==> 0 <= os[o].version <= 3
  {
    forall o | o in os
      ensures os[o].version <= 3
    {
      assert Stage(os[o].status) <= 3;
    }
  }

  /** An update that moves an order to a later stage and bumps its version once. */
  predicate Advances(before: Order, after: Order)
  {
    after.version == before.version + 1 && Stage(before.status) < Stage(after.status)
  }

  /**
   * Refund rows: each belongs to a REFUNDED order, is that order's only
   * refund row, and refunds no more than the order's total.
   */
  ghost predicate StoreRefunds(os: map<Id, Order>, ps: seq<Payment>)
    requires forall i :: 0 <= i < |ps| ==> ps[i].order in os
  {
    forall i :: 0 <= i < |ps| && ps[i].status == PaymentRefunded ==>
      && os[ps[i].order].status == Refunded
      && -ps[i].amount <= os[ps[i].order].totalAmount
      && forall j :: 0 <= j < |ps| && j != i && ps[j].order == ps[i].order ==> ps[j].status != PaymentRefunded
  }

  /**
   * The order `create_order` returns: PENDING, version 0, the request's
   * address, cost and notes, the subtotal of its new rows, 12% tax to the
   * nearest cent, and the total of the three.
   */
  predicate PlacedOrder(o: Order, id: Id, cid: Id, number: string, inputs: seq<ItemInput>,
                        shippingAddress: string, shippingCost: Cents, notes: string)
  {
    && o.id == id && o.customer == cid && o.orderNumber == number
    && o.status == Pending && o.version == 0
    && o.notes == notes && o.shippingAddress == shippingAddress && o.shippingCost == shippingCost
    && o.subtotal == SumTotals(NewItems(id, inputs))
    && -50 < 100 * o.taxAmount - TaxRatePercent * o.subtotal < 50
    && o.totalAmount == o.subtotal + o.taxAmount + o.shippingCost
  }

  /** The PENDING payment `create_order` inserts for an order's total. */
  function PendingPayment(order: Id, txn: string, m: PaymentMethod, amount: Cents): Payment
  {
    Payment(order, txn, m, amount, DefaultCurrency, PaymentPending, "", NoResponse, "", None)
  }

  /** Some customer is linked to `user` (the one-to-one `Customer.user` column). */
  predicate UserTaken(cs: map<Id, Customer>, user: Id)
  {
    exists c :: c in cs && cs[c].user == Some(user)
  }

  /** Some order already carries order number `number` (a unique column). */
  predicate NumberTaken(os: map<Id, Order>, number: string)
  {
    exists o :: o in os && os[o].orderNumber == number
  }

  /** Some payment already carries transaction id `txn` (a unique column). */
  predicate TransactionTaken(ps: seq<Payment>, txn: string)
  {
    exists k :: 0 <= k < |ps| && ps[k].transactionId == txn
  }

  /** The customer step of `create_order`: an existing customer, or one to insert. */
  datatype CustomerStep = Existing(id: Id) | Create(customer: Customer)

  function StepCustomerId(step: CustomerStep): Id
  {
    if step.Existing? then step.id else step.customer.id
  }

  /**
   * The customer step of `create_order`: the given customer if it exists,
   * otherwise a new one from the guest data, linked to the signed-in user.
   * Inserting it fails when a guest field is missing (the NOT NULL columns),
   * or else when its key or its user is taken.
   */
  function ChooseCustomer(cs: map<Id, Customer>, customerId: Option<Id>, draft: Option<CustomerDraft>,
                          principal: Option<Id>, newCustomerId: Id): (r: Result<CustomerStep, Error>)
    ensures r.Ok? && r.value.Existing? ==> customerId == Some(r.value.id) && r.value.id in cs
    ensures r.Ok? && r.value.Create? ==>
      && customerId.None? && r.value.customer.id == newCustomerId && newCustomerId !in cs
      && r.value.customer.user == principal && (principal.Some? ==> !UserTaken(cs, principal.value))
    ensures r.Ok? && r.value.Create? ==>
      draft.Some? && DraftComplete(draft.value) && r.value.customer == NewCustomer(newCustomerId, principal, draft.value)
    ensures r == Err(CustomerNotFound) <==> customerId.Some? && customerId.value !in cs
    ensures r == Err(CustomerDataRequired) <==> customerId.None? && draft.None?
    ensures r == Err(CustomerFieldMissing) <==> customerId.None? && draft.Some? && !DraftComplete(draft.value)
    ensures r == Err(Conflict) <==>
      && customerId.None? && draft.Some? && DraftComplete(draft.value)
      && (newCustomerId in cs || (principal.Some? && UserTaken(cs, principal.value)))
  {
    if customerId.Some? then
      if customerId.value in cs then Ok(Existing(customerId.value)) else Err(CustomerNotFound)
    else if draft.None? then Err(CustomerDataRequired)
    else if !DraftComplete(draft.value) then Err(CustomerFieldMissing)
    else if newCustomerId in cs || (principal.Some? && UserTaken(cs, principal.value)) then Err(Conflict)
    else Ok(Create(NewCustomer(newCustomerId, principal, draft.value)))
  }

  /**
   * A guest checkout that sends none of the customer fields still passes a
   * non-empty `customer_data`, so it is refused at the customer insert, not
   * as missing data.
   */
  lemma GuestWithoutFieldsFails(cs: map<Id, Customer>, principal: Option<Id>, newCustomerId: Id)
    ensures ChooseCustomer(cs, None, Some(CustomerDraft(None, None, None)), principal, newCustomerId)
      == Err(CustomerFieldMissing)
  {
  }

  /** Adding a customer under a fresh key, with a user no customer has yet, keeps the constraints. */
  lemma AddCustomerKeepsValid(cs: map<Id, Customer>, os: map<Id, Order>, its: seq<OrderItem>, ps: seq<Payment>, c: Customer)
    requires StoreValid(cs, os, its, ps)
    requires c.id !in cs
    requires c.user.Some? ==> !UserTaken(cs, c.user.value)
    ensures StoreValid(cs[c.id := c], os, its, ps)
  {
  }

  /** The items of a fresh order are exactly the rows just appended for it. */
  lemma ItemsOfFreshOrder(items0: seq<OrderItem>, order: Id, inputs: seq<ItemInput>, os: map<Id, Order>)
    requires forall i :: 0 <= i < |items0| ==> items0[i].order in os
    requires order !in os
    ensures ItemsOf(items0 + NewItems(order, inputs), order) == NewItems(order, inputs)
  {
    ItemsOfAppend(items0, NewItems(order, inputs), order);
    ItemsOfOnly(items0, order);
    ItemsOfOnly(NewItems(order, inputs), order);
  }

  /** Appending a fresh order's rows leaves every other order's items as they were. */
  lemma ItemsOfOtherOrders(items0: seq<OrderItem>, order: Id, inputs: seq<ItemInput>, os: map<Id, Order>)
    requires order !in os
    ensures forall o :: o in os ==> ItemsOf(items0 + NewItems(order, inputs), o) == ItemsOf(items0, o)
  {
    var added := NewItems(order, inputs);
    forall o | o in os
      ensures ItemsOf(items0 + added, o) == ItemsOf(items0, o)
    {
      ItemsOfAppend(items0, added, o);
      ItemsOfOnly(added, o);
      assert ItemsOf(items0, o) + [] == ItemsOf(items0, o);
    }
  }

  /** Rows made from serializer-checked inputs pass `OrderItem.clean` and the quantity and amount bounds. */
  lemma NewItemsClean(order: Id, inputs: seq<ItemInput>)
    requires forall i :: 0 <= i < |inputs| ==> ValidItemInput(inputs[i])
    ensures forall i :: 0 <= i < |inputs| ==>
      var it := NewItems(order, inputs)[i];
      ItemClean(it) && it.quantity >= 1 && it.totalPrice >= 1
  {
    forall i | 0 <= i < |inputs|
      ensures NewItems(order, inputs)[i].totalPrice >= 1
    {
      var u, q := inputs[i].unitPrice, inputs[i].quantity;
      assert u * q == u * (q - 1) + u;
      assert u * (q - 1) >= 0;
    }
  }

  /** Inserting an order under fresh keys, with its items and its payment, keeps the constraints. */
  lemma CreatedOrderKeepsValid(cs: map<Id, Customer>, os0: map<Id, Order>, is0: seq<OrderItem>, ps0: seq<Payment>,
                               o: Order, added: seq<OrderItem>, pay: Payment)
    requires StoreValid(cs, os0, is0, ps0)
    requires o.id !in os0 && o.customer in cs && !NumberTaken(os0, o.orderNumber)
    requires forall i :: 0 <= i < |added| ==> added[i].order == o.id
    requires pay.order == o.id && !TransactionTaken(ps0, pay.transactionId)
    ensures StoreValid(cs, os0[o.id := o], is0 + added, ps0 + [pay])
  {
    var os, its := os0[o.id := o], is0 + added;
    forall i | 0 <= i < |its| ensures its[i].order in os {
      if i >= |is0| { assert its[i] == added[i - |is0|]; }
    }
  }

  /** The new order and payment are no refund rows and no REFUNDED order, so the refund bound is kept. */
  lemma CreatedOrderKeepsRefunds(os0: map<Id, Order>, ps0: seq<Payment>, o: Order, pay: Payment)
    requires forall i :: 0 <= i < |ps0| ==> ps0[i].order in os0
    requires o.id !in os0 && pay.order == o.id && pay.status == PaymentPending
    requires StoreRefunds(os0, ps0)
    ensures StoreRefunds(os0[o.id := o], ps0 + [pay])
  {
  }

  /** A priced order over clean rows, with its clean items and a PENDING payment, keeps every row clean. */
  lemma CreatedOrderKeepsClean(os0: map<Id, Order>, is0: seq<OrderItem>, ps0: seq<Payment>,
                               o: Order, inputs: seq<ItemInput>, pay: Payment)
    requires forall i :: 0 <= i < |is0| ==> is0[i].order in os0
    requires o.id !in os0 && pay.status == PaymentPending
    requires StoreClean(os0, is0, ps0)
    requires OrderClean(o) && OrderAmountsNonNegative(o) && o.subtotal == SumTotals(NewItems(o.id, inputs))
    requires forall i :: 0 <= i < |inputs| ==> ValidItemInput(inputs[i])
    ensures StoreClean(os0[o.id := o], is0 + NewItems(o.id, inputs), ps0 + [pay])
  {
    var added := NewItems(o.id, inputs);
    var os, its, ps := os0[o.id := o], is0 + added, ps0 + [pay];
    forall q | q in os
      ensures OrderClean(os[q]) && OrderAmountsNonNegative(os[q]) && os[q].subtotal == SumTotals(ItemsOf(its, q))
    {
      if q == o.id {
        ItemsOfFreshOrder(is0, o.id, inputs, os0);
      } else {
        ItemsOfAppend(is0, added, q);
        ItemsOfOnly(added, q);
        assert ItemsOf(is0, q) + [] == ItemsOf(is0, q);
      }
    }
    NewItemsClean(o.id, inputs);
    forall i | 0 <= i < |its|
      ensures ItemClean(its[i]) && its[i].quantity >= 1 && its[i].totalPrice >= 0
    {
      if i >= |is0| { assert its[i] == added[i - |is0|]; }
    }
    assert forall i :: 0 <= i < |ps| ==> PaymentClean(ps[i]) by {
      forall i | 0 <= i < |ps| ensures PaymentClean(ps[i]) {
        if i < |ps0| { assert ps[i] == ps0[i]; }
      }
    }
  }

  /** The three preservation facts of an order insertion, together. */
  lemma CreatedOrderKeepsInvariants(cs: map<Id, Customer>, os0: map<Id, Order>, is0: seq<OrderItem>, ps0: seq<Payment>,
                                    o: Order, inputs: seq<ItemInput>, pay: Payment)
    requires StoreValid(cs, os0, is0, ps0)
    requires o.id !in os0 && o.customer in cs && !NumberTaken(os0, o.orderNumber)
    requires pay.order == o.id && pay.status == PaymentPending && !TransactionTaken(ps0, pay.transactionId)
    requires o.status == Pending && o.version == 0 && OrderClean(o) && o.subtotal == SumTotals(NewItems(o.id, inputs))
    ensures StoreValid(cs, os0[o.id := o], is0 + NewItems(o.id, inputs), ps0 + [pay])
    ensures StoreStatuses(os0) ==> StoreStatuses(os0[o.id := o])
    ensures StoreRefunds(os0, ps0) ==> StoreRefunds(os0[o.id := o], ps0 + [pay])
    ensures StoreClean(os0, is0, ps0) && OrderAmountsNonNegative(o)
            && (forall i :: 0 <= i < |inputs| ==> ValidItemInput(inputs[i]))
      ==> StoreClean(os0[o.id := o], is0 + NewItems(o.id, inputs), ps0 + [pay])
  {
    CreatedOrderKeepsValid(cs, os0, is0, ps0, o, NewItems(o.id, inputs), pay);
    if StoreRefunds(os0, ps0) {
      CreatedOrderKeepsRefunds(os0, ps0, o, pay);
    }
    if StoreClean(os0, is0, ps0) && OrderAmountsNonNegative(o) && (forall i :: 0 <= i < |inputs| ==> ValidItemInput(inputs[i])) {
      CreatedOrderKeepsClean(os0, is0, ps0, o, inputs, pay);
    }
    UpdateOrderKeepsStatuses(os0, o);
  }

  /** Changing only an order's status, notes and version keeps the database constraints. */
  lemma UpdateOrderKeepsValid(cs: map<Id, Customer>, os: map<Id, Order>, its: seq<OrderItem>, ps: seq<Payment>, o: Order)
    requires StoreValid(cs, os, its, ps) && o.id in os
    requires o == os[o.id].(status := o.status, notes := o.notes, version := o.version)
    ensures StoreValid(cs, os[o.id := o], its, ps)
  {
  }

  /** ... and the clean rows, since no amount changes. */
  lemma UpdateOrderKeepsClean(os: map<Id, Order>, its: seq<OrderItem>, ps: seq<Payment>, o: Order)
    requires StoreClean(os, its, ps) && o.id in os
    requires o == os[o.id].(status := o.status, notes := o.notes, version := o.version)
    ensures StoreClean(os[o.id := o], its, ps)
  {
  }

  /** ... and the refund bound, for an order that has no refund row because it is not REFUNDED. */
  lemma UpdateOrderKeepsRefunds(os: map<Id, Order>, ps: seq<Payment>, o: Order)
    requires forall i :: 0 <= i < |ps| ==> ps[i].order in os
    requires StoreRefunds(os, ps) && o.id in os && os[o.id].status != Refunded
    requires o == os[o.id].(status := o.status, notes := o.notes, version := o.version)
    ensures StoreRefunds(os[o.id := o], ps)
  {
    forall i | 0 <= i < |ps| && ps[i].status == PaymentRefunded
      ensures ps[i].order != o.id
    {
    }
  }

  /** Rewriting one payment row that is not a refund, keeping its order and id, keeps the invariants. */
  lemma UpdatePaymentKeepsInvariants(cs: map<Id, Customer>, os: map<Id, Order>, its: seq<OrderItem>, ps: seq<Payment>,
                                     k: nat, p: Payment)
    requires StoreValid(cs, os, its, ps) && k < |ps|
    requires p.order == ps[k].order && p.transactionId == ps[k].transactionId
    requires ps[k].status != PaymentRefunded && p.status != PaymentRefunded
    ensures StoreValid(cs, os, its, ps[k := p])
    ensures StoreClean(os, its, ps) && PaymentClean(p) ==> StoreClean(os, its, ps[k := p])
    ensures StoreRefunds(os, ps) ==> StoreRefunds(os, ps[k := p])
  {
  }

  /** The bulk cancellation of open payments keeps the invariants. */
  lemma CancelOpenKeepsInvariants(cs: map<Id, Customer>, os: map<Id, Order>, its: seq<OrderItem>, ps: seq<Payment>, order: Id)
    requires StoreValid(cs, os, its, ps)
    ensures StoreValid(cs, os, its, CancelOpenPayments(ps, order))
    ensures StoreClean(os, its, ps) ==> StoreClean(os, its, CancelOpenPayments(ps, order))
    ensures StoreRefunds(os, ps) ==> StoreRefunds(os, CancelOpenPayments(ps, order))
  {
    CancelOpenKeepsValid(cs, os, its, ps, order);
    CancelOpenKeepsClean(os, its, ps, order);
    CancelOpenKeepsRefunds(os, ps, order);
  }

  lemma CancelOpenKeepsValid(cs: map<Id, Customer>, os: map<Id, Order>, its: seq<OrderItem>, ps: seq<Payment>, order: Id)
    requires StoreValid(cs, os, its, ps)
    ensures StoreValid(cs, os, its, CancelOpenPayments(ps, order))
  {
    CancelOpenPaymentsSpec(ps, order);
  }

  lemma CancelOpenKeepsClean(os: map<Id, Order>, its: seq<OrderItem>, ps: seq<Payment>, order: Id)
    ensures StoreClean(os, its, ps) ==> StoreClean(os, its, CancelOpenPayments(ps, order))
  {
    CancelOpenPaymentsSpec(ps, order);
  }

  lemma CancelOpenKeepsRefunds(os: map<Id, Order>, ps: seq<Payment>, order: Id)
    requires forall i :: 0 <= i < |ps| ==> ps[i].order in os
    ensures StoreRefunds(os, ps) ==> StoreRefunds(os, CancelOpenPayments(ps, order))
  {
    CancelOpenPaymentsSpec(ps, order);
  }

  /** Refunding a COMPLETED order and appending its refund row keeps the database constraints. */
  lemma RefundKeepsValid(cs: map<Id, Customer>, os: map<Id, Order>, its: seq<OrderItem>, ps: seq<Payment>,
                         o: Order, pay: Payment)
    requires StoreValid(cs, os, its, ps) && o.id in os
    requires o == os[o.id].(status := o.status, notes := o.notes, version := o.version)
    requires pay.order == o.id && !TransactionTaken(ps, pay.transactionId)
    ensures StoreValid(cs, os[o.id := o], its, ps + [pay])
  {
    UpdateOrderKeepsValid(cs, os, its, ps, o);
  }

  /** ... and the clean rows: a refund row is never COMPLETED. */
  lemma RefundKeepsClean(os: map<Id, Order>, its: seq<OrderItem>, ps: seq<Payment>, o: Order, pay: Payment)
    requires StoreClean(os, its, ps) && o.id in os
    requires o == os[o.id].(status := o.status, notes := o.notes, version := o.version)
    requires pay.status == PaymentRefunded
    ensures StoreClean(os[o.id := o], its, ps + [pay])
  {
    UpdateOrderKeepsClean(os, its, ps, o);
    var ps2 := ps + [pay];
    forall i | 0 <= i < |ps2| ensures PaymentClean(ps2[i]) {
      if i < |ps| { assert ps2[i] == ps[i]; }
    }
  }

  /**
   * ... and the refund bound: a COMPLETED order has no refund row yet, so
   * the appended row is its only one, and it refunds at most the total.
   */
  lemma RefundKeepsRefunds(os: map<Id, Order>, ps: seq<Payment>, o: Order, pay: Payment)
    requires forall i :: 0 <= i < |ps| ==> ps[i].order in os
    requires StoreRefunds(os, ps) && o.id in os && os[o.id].status == Completed
    requires o == os[o.id].(status := Refunded, notes := o.notes, version := o.version)
    requires pay.order == o.id && pay.status == PaymentRefunded && -pay.amount <= o.totalAmount
    ensures StoreRefunds(os[o.id := o], ps + [pay])
  {
    var os2, ps2 := os[o.id := o], ps + [pay];
    forall i | 0 <= i < |ps2| && ps2[i].status == PaymentRefunded
      ensures os2[ps2[i].order].status == Refunded && -ps2[i].amount <= os2[ps2[i].order].totalAmount
      ensures forall j :: 0 <= j < |ps2| && j != i && ps2[j].order == ps2[i].order ==> ps2[j].status != PaymentRefunded
    {
      if i < |ps| {
        assert ps2[i] == ps[i];
        forall j | 0 <= j < |ps2| && j != i && ps2[j].order == ps2[i].order
          ensures ps2[j].status != PaymentRefunded
        {
          if j < |ps| { assert ps2[j] == ps[j]; }
        }
      } else {
        forall j | 0 <= j < |ps2| && j != i && ps2[j].order == ps2[i].order
          ensures ps2[j].status != PaymentRefunded
        {
          assert ps2[j] == ps[j];
        }
      }
    }
  }

  /** Completing a PENDING payment and confirming its order keeps every invariant. */
  lemma ConfirmKeepsInvariants(cs: map<Id, Customer>, os: map<Id, Order>, its: seq<OrderItem>, ps: seq<Payment>,
                               k: nat, paid: Payment, confirmed: Order)
    requires StoreValid(cs, os, its, ps) && k < |ps| && ps[k].status == PaymentPending
    requires paid == ps[k].(status := PaymentCompleted, gateway := paid.gateway, processedAt := paid.processedAt,
                            response := paid.response)
    requires paid.processedAt.Some?
    requires confirmed.id in os && os[confirmed.id].status != Refunded && confirmed.status == Confirmed
    requires Advances(os[confirmed.id], confirmed)
    requires confirmed == os[confirmed.id].(status := confirmed.status, version := confirmed.version)
    ensures StoreValid(cs, os[confirmed.id := confirmed], its, ps[k := paid])
    ensures StoreClean(os, its, ps) ==> StoreClean(os[confirmed.id := confirmed], its, ps[k := paid])
    ensures StoreStatuses(os) ==> StoreStatuses(os[confirmed.id := confirmed])
    ensures StoreRefunds(os, ps) ==> StoreRefunds(os[confirmed.id := confirmed], ps[k := paid])
  {
    UpdatePaymentKeepsInvariants(cs, os, its, ps, k, paid);
    UpdateOrderKeepsValid(cs, os, its, ps[k := paid], confirmed);
    if StoreClean(os, its, ps) {
      UpdateOrderKeepsClean(os, its, ps[k := paid], confirmed);
    }
    if StoreRefunds(os, ps) {
      UpdateOrderKeepsRefunds(os, ps[k := paid], confirmed);
    }
    UpdateOrderKeepsStatuses(os, confirmed);
  }

  /** Changing the status, notes or version of an order that is not REFUNDED keeps every invariant. */
  lemma UpdateOrderKeepsInvariants(cs: map<Id, Customer>, os: map<Id, Order>, its: seq<OrderItem>, ps: seq<Payment>,
                                   o: Order)
    requires StoreValid(cs, os, its, ps) && o.id in os && os[o.id].status != Refunded
    requires o.status != Processing && o.status != Failed && Advances(os[o.id], o)
    requires o == os[o.id].(status := o.status, notes := o.notes, version := o.version)
    ensures StoreValid(cs, os[o.id := o], its, ps)
    ensures StoreClean(os, its, ps) ==> StoreClean(os[o.id := o], its, ps)
    ensures StoreStatuses(os) ==> StoreStatuses(os[o.id := o])
    ensures StoreRefunds(os, ps) ==> StoreRefunds(os[o.id := o], ps)
  {
    UpdateOrderKeepsValid(cs, os, its, ps, o);
    if StoreClean(os, its, ps) {
      UpdateOrderKeepsClean(os, its, ps, o);
    }
    if StoreRefunds(os, ps) {
      UpdateOrderKeepsRefunds(os, ps, o);
    }
    UpdateOrderKeepsStatuses(os, o);
  }

  /** ... and the committed statuses, when the new status is one. */
  lemma UpdateOrderKeepsStatuses(os: map<Id, Order>, o: Order)
    requires o.status != Processing && o.status != Failed
    requires o.id in os ==> Advances(os[o.id], o)
    requires o.id !in os ==> o.version == 0
    ensures StoreStatuses(os) ==> StoreStatuses(os[o.id := o])
  {
  }

  /** The statuses `process_payment` accepts. */
  predicate Processable(s: OrderStatus) { s == Pending || s == Processing }

  /**
   * The committed result of an approved `process_payment`: payment `k`
   * COMPLETED through `gateway` at `now`, its order CONFIRMED with its
   * version bumped, and nothing else changed.
   */
  ghost predicate ChargeCommitted(os0: map<Id, Order>, ps0: seq<Payment>, os: map<Id, Order>, ps: seq<Payment>,
                          orderId: Id, k: nat, gateway: string, now: Instant)
  {
    && orderId in os0 && k < |ps0|
    && ps == ps0[k := ps0[k].(status := PaymentCompleted, gateway := gateway, processedAt := Some(now), response := SuccessResponse)]
    && os == os0[orderId := os0[orderId].(status := Confirmed, version := os0[orderId].version + 1)]
  }

  /**
   * The committed result of `cancel_order`: the order CANCELLED with the
   * reason noted and its version bumped, its open payments CANCELLED.
   */
  ghost predicate CancelCommitted(os0: map<Id, Order>, ps0: seq<Payment>, os: map<Id, Order>, ps: seq<Payment>,
                                  orderId: Id, reason: string)
  {
    && orderId in os0
    && os == os0[orderId := os0[orderId].(status := Cancelled, notes := CancelNotes(os0[orderId].notes, reason),
                                          version := os0[orderId].version + 1)]
    && ps == CancelOpenPayments(ps0, orderId)
  }

  /** Cancelling an order that is not REFUNDED, and its open payments, keeps the constraints. */
  lemma CancelKeepsInvariants(cs: map<Id, Customer>, os: map<Id, Order>, its: seq<OrderItem>, ps: seq<Payment>,
                              o: Order)
    requires StoreValid(cs, os, its, ps) && o.id in os && os[o.id].status != Refunded && o.status == Cancelled
    requires Advances(os[o.id], o)
    requires o == os[o.id].(status := o.status, notes := o.notes, version := o.version)
    ensures StoreValid(cs, os[o.id := o], its, CancelOpenPayments(ps, o.id))
    ensures StoreClean(os, its, ps) ==> StoreClean(os[o.id := o], its, CancelOpenPayments(ps, o.id))
    ensures StoreStatuses(os) ==> StoreStatuses(os[o.id := o])
    ensures StoreRefunds(os, ps) ==> StoreRefunds(os[o.id := o], CancelOpenPayments(ps, o.id))
  {
    UpdateOrderKeepsInvariants(cs, os, its, ps, o);
    CancelOpenKeepsInvariants(cs, os[o.id := o], its, ps, o.id);
  }

  /**
   * The committed result of `refund_order`: the order REFUNDED with the
   * reason and amount noted and its version bumped, and the refund row
   * appended after every existing payment.
   */
  ghost predicate RefundCommitted(os0: map<Id, Order>, ps0: seq<Payment>, os: map<Id, Order>, ps: seq<Payment>,
                                  orderId: Id, paid: Payment, refund: Cents, reason: string, txn: string, now: Instant)
  {
    && orderId in os0
    && os == os0[orderId := os0[orderId].(status := Refunded, notes := RefundNotes(os0[orderId].notes, reason, refund),
                                          version := os0[orderId].version + 1)]
    && ps == ps0 + [RefundPayment(orderId, txn, paid, refund, reason, now)]
  }

  /**
   * What `refund_order` does to a refundable order once the amount `refund`
   * and the transaction id `txn` are fixed: an amount above the total, a
   * missing completed payment or a taken transaction id each fail with
   * their own error; otherwise the refund is committed against the newest
   * completed payment.
   */
  ghost predicate RefundDecided(os0: map<Id, Order>, ps0: seq<Payment>, os: map<Id, Order>, ps: seq<Payment>,
                                orderId: Id, refund: Cents, reason: string, txn: string, now: Instant,
                                r: Result<Order, Error>)
    requires orderId in os0
  {
    var k := NewestIndex(ps0, orderId, PaymentCompleted);
    && (refund > os0[orderId].totalAmount ==> r == Err(RefundExceedsTotal))
    && (refund <= os0[orderId].totalAmount && k.None? ==> r == Err(NoCompletedPayment))
    && (refund <= os0[orderId].totalAmount && k.Some? && TransactionTaken(ps0, txn) ==> r == Err(Conflict))
    && (refund <= os0[orderId].totalAmount && k.Some? && !TransactionTaken(ps0, txn) ==>
          r.Ok? && RefundCommitted(os0, ps0, os, ps, orderId, ps0[k.value], refund, reason, txn, now))
  }

  /** Refunding a COMPLETED order by at most its total, under a fresh transaction id, keeps the constraints. */
  lemma RefundKeepsInvariants(cs: map<Id, Customer>, os: map<Id, Order>, its: seq<OrderItem>, ps: seq<Payment>,
                              o: Order, pay: Payment)
    requires StoreValid(cs, os, its, ps) && o.id in os && os[o.id].status == Completed && o.status == Refunded
    requires Advances(os[o.id], o)
    requires o == os[o.id].(status := o.status, notes := o.notes, version := o.version)
    requires pay.order == o.id && pay.status == PaymentRefunded && -pay.amount <= o.totalAmount
    requires !TransactionTaken(ps, pay.transactionId)
    ensures StoreValid(cs, os[o.id := o], its, ps + [pay])
    ensures StoreClean(os, its, ps) ==> StoreClean(os[o.id := o], its, ps + [pay])
    ensures StoreStatuses(os) ==> StoreStatuses(os[o.id := o])
    ensures StoreRefunds(os, ps) ==> StoreRefunds(os[o.id := o], ps + [pay])
  {
    RefundKeepsValid(cs, os, its, ps, o, pay);
    if StoreClean(os, its, ps) {
      RefundKeepsClean(os, its, ps, o, pay);
    }
    if StoreRefunds(os, ps) {
      RefundKeepsRefunds(os, ps, o, pay);
    }
    UpdateOrderKeepsStatuses(os, o);
  }

  // ----- what each committed operation leaves behind -----

  /** The order `create_order` prices carries exactly the tax `calculate_totals` computes. */
  lemma PlacedOrderTax(o: Order, id: Id, cid: Id, number: string, inputs: seq<ItemInput>,
                       shippingAddress: string, shippingCost: Cents, notes: string)
    requires PlacedOrder(o, id, cid, number, inputs, shippingAddress, shippingCost, notes)
    ensures o.taxAmount == TaxCents(o.subtotal)
    ensures o.totalAmount == o.subtotal + TaxCents(o.subtotal) + shippingCost
  {
    TaxIsNearestCent(o.subtotal);
  }

  /**
   * An approved payment confirms its order with one version bump, completes
   * exactly the chosen payment, and touches no other order or payment.
   */
  lemma ChargeFrame(os0: map<Id, Order>, ps0: seq<Payment>, os: map<Id, Order>, ps: seq<Payment>,
                    orderId: Id, k: nat, gateway: string, now: Instant)
    requires ChargeCommitted(os0, ps0, os, ps, orderId, k, gateway, now)
    ensures os.Keys == os0.Keys && forall id :: id in os0 && id != orderId ==> os[id] == os0[id]
    ensures os[orderId].status == Confirmed && os[orderId].version == os0[orderId].version + 1
    ensures os[orderId].status in Successors(os0[orderId].status) <==> Processable(os0[orderId].status)
    ensures |ps| == |ps0| && forall j :: 0 <= j < |ps| && j != k ==> ps[j] == ps0[j]
    ensures ps[k].status == PaymentCompleted && ps[k].processedAt == Some(now) && ps[k].gateway == gateway
    ensures ps[k].amount == ps0[k].amount && ps[k].transactionId == ps0[k].transactionId
  {
  }

  /**
   * A cancellation bumps the order's version once, leaves it in a status
   * that cannot be cancelled again, and changes exactly the order's open
   * payments, each to CANCELLED with the fixed message.
   */
  lemma CancelFrame(os0: map<Id, Order>, ps0: seq<Payment>, os: map<Id, Order>, ps: seq<Payment>,
                    orderId: Id, reason: string)
    requires CancelCommitted(os0, ps0, os, ps, orderId, reason)
    ensures os.Keys == os0.Keys && forall id :: id in os0 && id != orderId ==> os[id] == os0[id]
    ensures os[orderId].status == Cancelled && os[orderId].version == os0[orderId].version + 1
    ensures os[orderId].status in Successors(os0[orderId].status) <==> CanBeCancelled(os0[orderId].status)
    ensures !CanBeCancelled(os[orderId].status) && !CanBeRefunded(os[orderId].status)
    ensures reason == "" ==> os[orderId].notes == os0[orderId].notes
    ensures |ps| == |ps0|
    ensures forall j :: 0 <= j < |ps| ==> (ps[j] != ps0[j] <==> ps0[j].order == orderId && IsOpen(ps0[j]))
    ensures forall j :: 0 <= j < |ps| && ps[j] != ps0[j] ==>
      ps[j].status == PaymentCancelled && ps[j].errorMessage == CancelledMessage
  {
    CancelOpenPaymentsSpec(ps0, orderId);
  }

  /**
   * A refund bumps the order's version once, leaves it in a status that
   * cannot be refunded (or cancelled) again, keeps every existing payment
   * and appends one REFUNDED row for the negated amount, copying the
   * completed payment's method, currency and gateway.
   */
  lemma RefundFrame(os0: map<Id, Order>, ps0: seq<Payment>, os: map<Id, Order>, ps: seq<Payment>,
                    orderId: Id, paid: Payment, refund: Cents, reason: string, txn: string, now: Instant)
    requires RefundCommitted(os0, ps0, os, ps, orderId, paid, refund, reason, txn, now)
    ensures os.Keys == os0.Keys && forall id :: id in os0 && id != orderId ==> os[id] == os0[id]
    ensures os[orderId].status == Refunded && os[orderId].version == os0[orderId].version + 1
    ensures os[orderId].status in Successors(os0[orderId].status) <==> CanBeRefunded(os0[orderId].status)
    ensures !CanBeRefunded(os[orderId].status) && !CanBeCancelled(os[orderId].status)
    ensures |ps| == |ps0| + 1 && ps[..|ps0|] == ps0
    ensures var row := ps[|ps0|];
      && row.order == orderId && row.transactionId == txn && row.status == PaymentRefunded
      && row.amount == -refund && row.paymentMethod == paid.paymentMethod
      && row.currency == paid.currency && row.gateway == paid.gateway && row.processedAt == Some(now)
  {
  }

  class Store {
    var customers: map<Id, Customer>
    var orders: map<Id, Order>
    var items: seq<OrderItem>
    /** Every payment row, oldest first. */
    var payments: seq<Payment>

    /** The database's own constraints: primary keys, foreign keys and unique columns. */
    ghost predicate Valid()
      reads this
    {
      StoreValid(customers, orders, items, payments)
    }

    /** What the models' `clean` methods and amount validators demand of every row. */
    ghost predicate EntitiesClean()
      reads this`orders, this`items, this`payments
    {
      StoreClean(orders, items, payments)
    }

    /** Only statuses the engine can commit. */
    ghost predicate EngineStatuses()
      reads this`orders
    {
      StoreStatuses(orders)
    }

    /** At most one refund row per order, never more than its total. */
    ghost predicate RefundsBounded()
      reads this
      requires Valid()
    {
      StoreRefunds(orders, payments)
    }

    ghost predicate UserHasCustomer(user: Id)
      reads this`customers
    {
      UserTaken(customers, user)
    }

    constructor ()
      ensures Valid() && EntitiesClean() && EngineStatuses() && RefundsBounded()
      ensures customers == map[] && orders == map[] && items == [] && payments == []
    {
      customers, orders, items, payments := map[], map[], [], [];
    }

    /** The new customer (if any) can be inserted: a fresh key, and a user no customer has yet. */
    ghost predicate CustomerInsertable(customerId: Option<Id>, principal: Option<Id>, newCustomerId: Id)
      reads this`customers
    {
      customerId.None? ==> newCustomerId !in customers && (principal.Some? ==> !UserHasCustomer(principal.value))
    }

    /** The new order can be inserted: a fresh key and an order number no order has. */
    ghost predicate OrderInsertable(newOrderId: Id, number: string)
      reads this`orders
    {
      newOrderId !in orders && !NumberTaken(orders, number)
    }

    /** No payment carries transaction id `txn` yet. */
    ghost predicate TransactionFree(txn: string)
      reads this`payments
    {
      !TransactionTaken(payments, txn)
    }

    /**
     * The item loop of `create_order`: one `OrderItem.objects.create` per
     * input, in input order. The first row with a negative quantity breaks
     * the column's CHECK constraint: the loop stops there with the rows
     * before it written, and the caller rolls them back.
     */
    method AddItems(order: Id, inputs: seq<ItemInput>) returns (ok: bool)
      modifies this`items
      ensures ok <==> QuantitiesStorable(inputs)
      ensures ok ==> items == old(items) + NewItems(order, inputs)
      ensures !ok ==> exists n ::
        && 0 <= n < |inputs| && inputs[n].quantity < 0 && QuantitiesStorable(inputs[..n])
        && items == old(items) + NewItems(order, inputs[..n])
      ensures customers == old(customers) && orders == old(orders) && payments == old(payments)
    {
      var i := 0;
      while i < |inputs|
        invariant 0 <= i <= |inputs|
        invariant QuantitiesStorable(inputs[..i])
        invariant items == old(items) + NewItems(order, inputs[..i])
        invariant customers == old(customers) && orders == old(orders) && payments == old(payments)
      {
        var it := inputs[i];
        if it.quantity < 0 {
          return false;
        }
        var total := it.unitPrice * it.quantity;
        items := items + [OrderItem(order, it.productName, it.productSku, it.quantity, it.unitPrice,
                                    SavedTotal(it.unitPrice, it.quantity, Some(total)))];
        assert NewItems(order, inputs[..i + 1]) == NewItems(order, inputs[..i]) + [NewItem(order, it)];
        assert inputs[..i + 1] == inputs[..i] + [it];
        i := i + 1;
      }
      assert inputs[..i] == inputs;
      ok := true;
    }

    /**
     * The pricing step of `create_order`, once the rows of the PENDING order
     * `pending` (already inserted over `orders0`) are appended to `items0`:
     * `calculate_totals` over the order's items, then save the order.
     */
    method PriceOrder(orders0: map<Id, Order>, items0: seq<OrderItem>, pending: Order, itemsIn: seq<ItemInput>)
      returns (o: Order)
      requires forall i :: 0 <= i < |items0| ==> items0[i].order in orders0
      requires pending.id !in orders0 && items == items0 + NewItems(pending.id, itemsIn)
      modifies this`orders
      ensures orders == orders0[pending.id := o]
      ensures o == pending.(subtotal := o.subtotal, taxAmount := o.taxAmount, totalAmount := o.totalAmount)
      ensures o.subtotal == SumTotals(NewItems(pending.id, itemsIn))
      ensures -50 < 100 * o.taxAmount - TaxRatePercent * o.subtotal < 50
      ensures o.totalAmount == o.subtotal + o.taxAmount + o.shippingCost
      ensures OrderClean(o)
      ensures pending.shippingCost >= 0 && (forall i :: 0 <= i < |itemsIn| ==> ValidItemInput(itemsIn[i]))
        ==> OrderAmountsNonNegative(o)
    {
      ItemsOfFreshOrder(items0, pending.id, itemsIn, orders0);
      if (forall k :: 0 <= k < |itemsIn| ==> ValidItemInput(itemsIn[k])) {
        NewItemsClean(pending.id, itemsIn);
      }
      o := CalculateTotals(pending, ItemsOf(items, pending.id));
      orders := orders0[pending.id := o];
    }

    /**
     * The item, pricing and payment steps of `create_order`, once the PENDING
     * order `pending` is inserted over `orders0`. A negative quantity, or a
     * transaction id already in use, rolls the whole insertion back.
     */
    method FillOrder(orders0: map<Id, Order>, pending: Order, itemsIn: seq<ItemInput>,
                     paymentMethod: PaymentMethod, txn: string)
      returns (r: Result<Order, Error>)
      requires StoreValid(customers, orders0, items, payments)
      requires pending.id !in orders0 && pending.customer in customers && !NumberTaken(orders0, pending.orderNumber)
      requires pending.status == Pending && pending.version == 0 && orders == orders0[pending.id := pending]
      modifies this`orders, this`items, this`payments
      ensures Valid() && customers == old(customers)
      ensures StoreClean(orders0, old(items), old(payments)) && pending.shippingCost >= 0
              && (forall i :: 0 <= i < |itemsIn| ==> ValidItemInput(itemsIn[i]))
        ==> EntitiesClean()
      ensures StoreStatuses(orders0) ==> EngineStatuses()
      ensures StoreRefunds(orders0, old(payments)) ==> RefundsBounded()
      ensures !QuantitiesStorable(itemsIn) ==> r == Err(QuantityRejected)
      ensures QuantitiesStorable(itemsIn) ==> (r.Err? <==> TransactionTaken(old(payments), txn))
      ensures QuantitiesStorable(itemsIn) && r.Err? ==> r == Err(Conflict)
      ensures r.Err? ==> orders == orders0 && items == old(items) && payments == old(payments)
      ensures r.Ok? ==>
        var o := r.value;
        && o == pending.(subtotal := o.subtotal, taxAmount := o.taxAmount, totalAmount := o.totalAmount)
        && o.subtotal == SumTotals(NewItems(pending.id, itemsIn))
        && -50 < 100 * o.taxAmount - TaxRatePercent * o.subtotal < 50
        && o.totalAmount == o.subtotal + o.taxAmount + o.shippingCost
        && orders == orders0[pending.id := o]
        && items == old(items) + NewItems(pending.id, itemsIn)
        && payments == old(payments) + [PendingPayment(pending.id, txn, paymentMethod, o.totalAmount)]
    {
      var items0 := items;
      var stored := AddItems(pending.id, itemsIn);
      if !stored {
        orders, items := orders0, items0;
        return Err(QuantityRejected);
      }
      var order := PriceOrder(orders0, items0, pending, itemsIn);
      if TransactionTaken(payments, txn) {
        orders, items := orders0, items0;
        return Err(Conflict);
      }
      var pay := PendingPayment(pending.id, txn, paymentMethod, order.totalAmount);
      CreatedOrderKeepsInvariants(customers, orders0, items0, payments, order, itemsIn, pay);
      payments := payments + [pay];
      r := Ok(order);
    }

    /**
     * The writes of `create_order` once the customer step is decided: insert
     * the new customer (if any), the PENDING order, refuse an empty item
     * list, then fill the order in. Any error rolls every write back.
     */
    method InsertOrder(step: CustomerStep, newOrderId: Id, number: string, itemsIn: seq<ItemInput>,
                       shippingAddress: string, shippingCost: Cents, notes: string,
                       paymentMethod: PaymentMethod, txn: string)
      returns (r: Result<Order, Error>)
      requires Valid()
      requires step.Existing? ==> step.id in customers
      requires step.Create? ==>
        step.customer.id !in customers && (step.customer.user.Some? ==> !UserTaken(customers, step.customer.user.value))
      modifies this
      ensures Valid()
      ensures old(EntitiesClean()) && shippingCost >= 0 && (forall i :: 0 <= i < |itemsIn| ==> ValidItemInput(itemsIn[i]))
        ==> EntitiesClean()
      ensures old(EngineStatuses()) ==> EngineStatuses()
      ensures old(RefundsBounded()) ==> RefundsBounded()
      ensures if !old(OrderInsertable(newOrderId, number)) then r == Err(Conflict)
              else if itemsIn == [] then r == Err(NoItems)
              else if !QuantitiesStorable(itemsIn) then r == Err(QuantityRejected)
              else if !old(TransactionFree(txn)) then r == Err(Conflict)
              else r.Ok?
      ensures r.Err? ==> customers == old(customers) && orders == old(orders) && items == old(items) && payments == old(payments)
      ensures r.Ok? ==>
        && PlacedOrder(r.value, newOrderId, StepCustomerId(step), number, itemsIn, shippingAddress, shippingCost, notes)
        && customers == (if step.Create? then old(customers)[step.customer.id := step.customer] else old(customers))
        && orders == old(orders)[newOrderId := r.value]
        && items == old(items) + NewItems(newOrderId, itemsIn)
        && payments == old(payments) + [PendingPayment(newOrderId, txn, paymentMethod, r.value.totalAmount)]
    {
      // the state the transaction rolls back to
      var customers0, orders0 := customers, orders;
      if step.Create? {
        AddCustomerKeepsValid(customers, orders, items, payments, step.customer);
        customers := customers[step.customer.id := step.customer];
      }
      if newOrderId in orders || NumberTaken(orders, number) {
        customers := customers0;
        return Err(Conflict);
      }
      var pending := Order(newOrderId, StepCustomerId(step), number, Pending, 0, 0, shippingCost, 0, notes, shippingAddress, 0);
      orders := orders[newOrderId := pending];
      if itemsIn == [] {
        customers, orders := customers0, orders0;
        return Err(NoItems);
      }
      r := FillOrder(orders0, pending, itemsIn, paymentMethod, txn);
      if r.Err? {
        customers := customers0;
      }
    }

    /**
     * `create_order`: resolve or create the customer, then insert the order,
     * its items, its totals and its PENDING payment, all in one transaction.
     * Any error leaves the store as it was.
     */
    method CreateOrder(customerId: Option<Id>, draft: Option<CustomerDraft>, itemsIn: seq<ItemInput>,
                       shippingAddress: string, shippingCost: Cents, notes: string,
                       paymentMethod: PaymentMethod, principal: Option<Id>,
                       newCustomerId: Id, newOrderId: Id, orderSeed: IdSeed, txnSeed: IdSeed)
      returns (r: Result<Order, Error>)
      requires Valid() && ValidSeed(orderSeed) && ValidSeed(txnSeed)
      modifies this
      ensures Valid()
      ensures old(EntitiesClean()) && shippingCost >= 0 && (forall i :: 0 <= i < |itemsIn| ==> ValidItemInput(itemsIn[i]))
        ==> EntitiesClean()
      ensures old(EngineStatuses()) ==> EngineStatuses()
      ensures old(RefundsBounded()) ==> RefundsBounded()
      // the errors, in the order the source meets them
      ensures customerId.Some? && customerId.value !in old(customers) ==> r == Err(CustomerNotFound)
      ensures customerId.None? && draft.None? ==> r == Err(CustomerDataRequired)
      ensures customerId.None? && draft.Some? && !DraftComplete(draft.value) ==> r == Err(CustomerFieldMissing)
      ensures (customerId.Some? ==> customerId.value in old(customers))
              && (customerId.None? ==> draft.Some? && DraftComplete(draft.value)) ==>
        if !old(CustomerInsertable(customerId, principal, newCustomerId)) then r == Err(Conflict)
        else if !old(OrderInsertable(newOrderId, OrderNumberOf(orderSeed))) then r == Err(Conflict)
        else if itemsIn == [] then r == Err(NoItems)
        else if !QuantitiesStorable(itemsIn) then r == Err(QuantityRejected)
        else if !old(TransactionFree(TransactionIdOf(txnSeed))) then r == Err(Conflict)
        else r.Ok?
      ensures r.Err? ==> customers == old(customers) && orders == old(orders) && items == old(items) && payments == old(payments)
      ensures r.Ok? && customerId.None? ==> draft.Some? && DraftComplete(draft.value)
      ensures r.Ok? ==>
        && PlacedOrder(r.value, newOrderId, if customerId.Some? then customerId.value else newCustomerId,
                       OrderNumberOf(orderSeed), itemsIn, shippingAddress, shippingCost, notes)
        && customers == (if customerId.Some? then old(customers)
                         else old(customers)[newCustomerId := NewCustomer(newCustomerId, principal, draft.value)])
        && orders == old(orders)[newOrderId := r.value]
        && items == old(items) + NewItems(newOrderId, itemsIn)
        && payments == old(payments) + [PendingPayment(newOrderId, TransactionIdOf(txnSeed), paymentMethod, r.value.totalAmount)]
    {
      var step := ChooseCustomer(customers, customerId, draft, principal, newCustomerId);
      if step.Err? {
        return Err(step.error);
      }
      r := InsertOrder(step.value, newOrderId, OrderNumberOf(orderSeed), itemsIn, shippingAddress, shippingCost,
                       notes, paymentMethod, TransactionIdOf(txnSeed));
    }

    /**
     * `process_payment`: charge the order's newest PENDING payment. The
     * gateway's answer is the parameter `approved`. On approval the payment
     * becomes COMPLETED and the order CONFIRMED; a decline writes FAILED to
     * both and then raises, so the transaction rolls every write back.
     */
    method ProcessPayment(orderId: Id, gateway: string, approved: bool, now: Instant)
      returns (r: Result<Payment, Error>)
      requires Valid()
      modifies this`orders, this`payments
      ensures Valid()
      ensures old(EntitiesClean()) ==> EntitiesClean()
      ensures old(EngineStatuses()) ==> EngineStatuses()
      ensures old(RefundsBounded()) ==> RefundsBounded()
      ensures customers == old(customers) && items == old(items)
      ensures r.Err? ==> orders == old(orders) && payments == old(payments)
      ensures orderId !in old(orders) ==> r == Err(OrderNotFound)
      ensures orderId in old(orders) && !Processable(old(orders)[orderId].status) ==>
        r == Err(CannotProcess(old(orders)[orderId].status))
      ensures orderId in old(orders) && Processable(old(orders)[orderId].status) ==>
        var k := NewestIndex(old(payments), orderId, PaymentPending);
        && (k.None? ==> r == Err(NoPendingPayment))
        && (k.Some? && !approved ==> r == Err(PaymentDeclined))
        && (k.Some? && approved ==> r.Ok? && ChargeCommitted(old(orders), old(payments), orders, payments, orderId, k.value, gateway, now))
      ensures r.Ok? ==>
        && Confirmed in Successors(old(orders)[orderId].status)
        && r.value == payments[NewestIndex(old(payments), orderId, PaymentPending).value]
    {
      if orderId !in orders {
        return Err(OrderNotFound);
      }
      var order := orders[orderId];
      if !Processable(order.status) {
        return Err(CannotProcess(order.status));
      }
      var found := NewestIndex(payments, orderId, PaymentPending);
      if found.None? {
        return Err(NoPendingPayment);
      }
      var k := found.value;
      if !approved {
        // PROCESSING, then FAILED, is written to both rows; the raised error rolls them back
        return Err(PaymentDeclined);
      }
      var paid := Charge(orderId, k, gateway, now);
      r := Ok(paid);
    }

    /** The approved branch of `process_payment`: the writes that survive the transaction. */
    method Charge(orderId: Id, k: nat, gateway: string, now: Instant) returns (paid: Payment)
      requires Valid() && orderId in orders && Processable(orders[orderId].status)
      requires k < |payments| && payments[k].status == PaymentPending
      modifies this`orders, this`payments
      ensures Valid()
      ensures old(EntitiesClean()) ==> EntitiesClean()
      ensures old(EngineStatuses()) ==> EngineStatuses()
      ensures old(RefundsBounded()) ==> RefundsBounded()
      ensures ChargeCommitted(old(orders), old(payments), orders, payments, orderId, k, gateway, now)
      ensures paid == payments[k]
    {
      // PROCESSING is written first and then overwritten within the transaction
      paid := payments[k].(status := PaymentCompleted, gateway := gateway, processedAt := Some(now), response := SuccessResponse);
      var order := orders[orderId];
      var confirmed := order.(status := Confirmed, version := order.version + 1);
      var os, ps := orders[orderId := confirmed], payments[k := paid];
      assert ChargeCommitted(orders, payments, os, ps, orderId, k, gateway, now);
      ConfirmKeepsInvariants(customers, orders, items, payments, k, paid, confirmed);
      orders, payments := os, ps;
    }

    /**
     * `cancel_order`: a PENDING, PROCESSING or CONFIRMED order becomes
     * CANCELLED, the reason (when given) is appended to its notes, and its
     * open payments are cancelled with it.
     */
    method CancelOrder(orderId: Id, reason: string) returns (r: Result<Order, Error>)
      requires Valid()
      modifies this`orders, this`payments
      ensures Valid()
      ensures old(EntitiesClean()) ==> EntitiesClean()
      ensures old(EngineStatuses()) ==> EngineStatuses()
      ensures old(RefundsBounded()) ==> RefundsBounded()
      ensures customers == old(customers) && items == old(items)
      ensures r.Err? ==> orders == old(orders) && payments == old(payments)
      ensures orderId !in old(orders) ==> r == Err(OrderNotFound)
      ensures orderId in old(orders) && !CanBeCancelled(old(orders)[orderId].status) ==>
        r == Err(CannotCancel(old(orders)[orderId].status))
      ensures orderId in old(orders) && CanBeCancelled(old(orders)[orderId].status) ==>
        r.Ok? && CancelCommitted(old(orders), old(payments), orders, payments, orderId, reason)
      ensures r.Ok? ==> Cancelled in Successors(old(orders)[orderId].status) && r.value == orders[orderId]
    {
      if orderId !in orders {
        return Err(OrderNotFound);
      }
      var order := orders[orderId];
      if !CanBeCancelled(order.status) {
        return Err(CannotCancel(order.status));
      }
      var cancelled := order.(status := Cancelled, notes := CancelNotes(order.notes, reason), version := order.version + 1);
      var os, ps := orders[orderId := cancelled], CancelOpenPayments(payments, orderId);
      assert CancelCommitted(orders, payments, os, ps, orderId, reason);
      CancelKeepsInvariants(customers, orders, items, payments, cancelled);
      orders, payments := os, ps;
      r := Ok(cancelled);
    }

    /**
     * `refund_order`: a COMPLETED order becomes REFUNDED. The refund is the
     * given amount, or the whole total when none (or zero) is given; it may
     * not exceed the total. A REFUNDED row copying the newest COMPLETED
     * payment's method, currency and gateway is appended under a new
     * transaction id.
     */
    method RefundOrder(orderId: Id, reason: string, amount: Option<Cents>, txnSeed: IdSeed, now: Instant)
      returns (r: Result<Order, Error>)
      requires Valid() && ValidSeed(txnSeed)
      modifies this
      ensures Valid()
      ensures old(EntitiesClean()) ==> EntitiesClean()
      ensures old(EngineStatuses()) ==> EngineStatuses()
      ensures old(RefundsBounded()) ==> RefundsBounded()
      ensures customers == old(customers) && items == old(items)
      ensures r.Err? ==> orders == old(orders) && payments == old(payments)
      ensures orderId !in old(orders) ==> r == Err(OrderNotFound)
      ensures orderId in old(orders) && !CanBeRefunded(old(orders)[orderId].status) ==>
        r == Err(CannotRefund(old(orders)[orderId].status))
      ensures orderId in old(orders) && CanBeRefunded(old(orders)[orderId].status) ==>
        var total := old(orders)[orderId].totalAmount;
        var refund := RefundAmount(amount, total);
        var k := NewestIndex(old(payments), orderId, PaymentCompleted);
        var txn := TransactionIdOf(txnSeed);
        && (refund > total ==> r == Err(RefundExceedsTotal))
        && (refund <= total && k.None? ==> r == Err(NoCompletedPayment))
        && (refund <= total && k.Some? && !old(TransactionFree(txn)) ==> r == Err(Conflict))
        && (refund <= total && k.Some? && old(TransactionFree(txn)) ==>
              r.Ok? && RefundCommitted(old(orders), old(payments), orders, payments, orderId, old(payments)[k.value],
                                       refund, reason, txn, now))
      ensures r.Ok? ==> orderId in orders && r.value == orders[orderId]
    {
      r := RefundUnder(orderId, reason, amount, TransactionIdOf(txnSeed), now);
    }

    /** `refund_order` once its transaction id `txn` is drawn. */
    method RefundUnder(orderId: Id, reason: string, amount: Option<Cents>, txn: string, now: Instant)
      returns (r: Result<Order, Error>)
      requires Valid()
      modifies this`orders, this`payments
      ensures Valid()
      ensures old(EntitiesClean()) ==> EntitiesClean()
      ensures old(EngineStatuses()) ==> EngineStatuses()
      ensures old(RefundsBounded()) ==> RefundsBounded()
      ensures customers == old(customers) && items == old(items)
      ensures r.Err? ==> orders == old(orders) && payments == old(payments)
      ensures orderId !in old(orders) ==> r == Err(OrderNotFound)
      ensures orderId in old(orders) && !CanBeRefunded(old(orders)[orderId].status) ==>
        r == Err(CannotRefund(old(orders)[orderId].status))
      ensures orderId in old(orders) && CanBeRefunded(old(orders)[orderId].status) ==>
        RefundDecided(old(orders), old(payments), orders, payments, orderId,
                      RefundAmount(amount, old(orders)[orderId].totalAmount), reason, txn, now, r)
      ensures r.Ok? ==> orderId in orders && r.value == orders[orderId]
    {
      if orderId !in orders {
        return Err(OrderNotFound);
      }
      var order := orders[orderId];
      if !CanBeRefunded(order.status) {
        return Err(CannotRefund(order.status));
      }
      r := RefundChecked(orderId, RefundAmount(amount, order.totalAmount), reason, txn, now);
    }

    /** The checks of `refund_order` once the order is known to be refundable: amount, payment, transaction id. */
    method RefundChecked(orderId: Id, refund: Cents, reason: string, txn: string, now: Instant)
      returns (r: Result<Order, Error>)
      requires Valid() && orderId in orders && CanBeRefunded(orders[orderId].status)
      modifies this`orders, this`payments
      ensures Valid()
      ensures old(EntitiesClean()) ==> EntitiesClean()
      ensures old(EngineStatuses()) ==> EngineStatuses()
      ensures old(RefundsBounded()) ==> RefundsBounded()
      ensures r.Err? ==> orders == old(orders) && payments == old(payments)
      ensures RefundDecided(old(orders), old(payments), orders, payments, orderId, refund, reason, txn, now, r)
      ensures r.Ok? ==> orderId in orders && r.value == orders[orderId]
    {
      if refund > orders[orderId].totalAmount {
        return Err(RefundExceedsTotal);
      }
      var found := NewestIndex(payments, orderId, PaymentCompleted);
      if found.None? {
        return Err(NoCompletedPayment);
      }
      if TransactionTaken(payments, txn) {
        return Err(Conflict);
      }
      r := Refund(orderId, payments[found.value], refund, reason, txn, now);
    }

    /** The writes of a `refund_order` that passed its checks. */
    method Refund(orderId: Id, paid: Payment, refund: Cents, reason: string, txn: string, now: Instant)
      returns (r: Result<Order, Error>)
      requires Valid() && orderId in orders && orders[orderId].status == Completed
      requires refund <= orders[orderId].totalAmount && !TransactionTaken(payments, txn)
      modifies this`orders, this`payments
      ensures Valid()
      ensures old(EntitiesClean()) ==> EntitiesClean()
      ensures old(EngineStatuses()) ==> EngineStatuses()
      ensures old(RefundsBounded()) ==> RefundsBounded()
      ensures RefundCommitted(old(orders), old(payments), orders, payments, orderId, paid, refund, reason, txn, now)
      ensures r == Ok(orders[orderId])
    {
      var order := orders[orderId];
      var refunded := order.(status := Refunded, notes := RefundNotes(order.notes, reason, refund), version := order.version + 1);
      var row := RefundPayment(orderId, txn, paid, refund, reason, now);
      var os, ps := orders[orderId := refunded], payments + [row];
      assert RefundCommitted(orders, payments, os, ps, orderId, paid, refund, reason, txn, now);
      RefundKeepsInvariants(customers, orders, items, payments, refunded, row);
      orders, payments := os, ps;
      r := Ok(refunded);
    }

    /** `complete_order`: only a CONFIRMED order becomes COMPLETED. */
    method CompleteOrder(orderId: Id) returns (r: Result<Order, Error>)
      requires Valid()
      modifies this`orders
      ensures Valid()
      ensures old(EntitiesClean()) ==> EntitiesClean()
      ensures old(EngineStatuses()) ==> EngineStatuses()
      ensures old(RefundsBounded()) ==> RefundsBounded()
      ensures r.Err? ==> orders == old(orders)
      ensures orderId !in old(orders) ==> r == Err(OrderNotFound)
      ensures orderId in old(orders) && old(orders)[orderId].status != Confirmed ==> r == Err(NotConfirmed)
      ensures orderId in old(orders) && old(orders)[orderId].status == Confirmed ==>
        && orders == old(orders)[orderId := old(orders)[orderId].(status := Completed,
                                                                   version := old(orders)[orderId].version + 1)]
        && r == Ok(orders[orderId])
      ensures r.Ok? ==> Completed in Successors(old(orders)[orderId].status)
    {
      if orderId !in orders {
        return Err(OrderNotFound);
      }
      var order := orders[orderId];
      if order.status != Confirmed {
        return Err(NotConfirmed);
      }
      var completed := order.(status := Completed, version := order.version + 1);
      var os := orders[orderId := completed];
      assert os == orders[orderId := orders[orderId].(status := Completed, version := orders[orderId].version + 1)];
      UpdateOrderKeepsInvariants(customers, orders, items, payments, completed);
      orders := os;
      r := Ok(completed);
    }

    /** `get_or_create_customer_from_user`: the user's customer profile, created on first use. */
    method GetOrCreateCustomerFromUser(user: Option<UserModels.User>, newCustomerId: Id)
      returns (r: Result<Option<Customer>, Error>)
      requires Valid()
      modifies this
      ensures Valid()
      ensures orders == old(orders) && items == old(items) && payments == old(payments)
      ensures old(EntitiesClean()) ==> EntitiesClean()
      ensures old(EngineStatuses()) ==> EngineStatuses()
      ensures old(RefundsBounded()) ==> RefundsBounded()
      ensures user.None? ==> r == Ok(None) && customers == old(customers)
      ensures user.Some? && old(UserHasCustomer(user.value.pk)) ==>
        && customers == old(customers) && r.Ok? && r.value.Some?
        && r.value.value.id in customers && customers[r.value.value.id] == r.value.value
        && r.value.value.user == Some(user.value.pk)
      ensures user.Some? && !old(UserHasCustomer(user.value.pk)) ==>
        if newCustomerId in old(customers) then r == Err(Conflict) && customers == old(customers)
        else
          var c := CustomerForUser(newCustomerId, user.value);
          r == Ok(Some(c)) && customers == old(customers)[newCustomerId := c]
      ensures user.Some? && r.Ok? ==> UserHasCustomer(user.value.pk)
    {
      if user.None? {
        return Ok(None);
      }
      var u := user.value;
      if UserTaken(customers, u.pk) {
        var c :| c in customers && customers[c].user == Some(u.pk);
        return Ok(Some(customers[c]));
      }
      if newCustomerId in customers {
        return Err(Conflict);
      }
      var c := CustomerForUser(newCustomerId, u);
      AddCustomerKeepsValid(customers, orders, items, payments, c);
      customers := customers[newCustomerId := c];
      assert customers[newCustomerId].user == Some(u.pk);
      r := Ok(Some(c));
    }
  }

  /** Cancelling an order twice: once the first call succeeds, the second is refused. */
  method CancelTwice(store: Store, orderId: Id, reason1: string, reason2: string)
    returns (first: Result<Order, Error>, second: Result<Order, Error>)
    requires store.Valid()
    modifies store
    ensures first.Ok? ==> second == Err(CannotCancel(Cancelled))
    ensures first.Err? ==> second == first
  {
    first := store.CancelOrder(orderId, reason1);
    second := store.CancelOrder(orderId, reason2);
  }

  /** Refunding an order twice: once the first call succeeds, the second is refused. */
  method RefundTwice(store: Store, orderId: Id, reason1: string, reason2: string,
                     amount1: Option<Cents>, amount2: Option<Cents>, seed1: IdSeed, seed2: IdSeed, now: Instant)
    returns (first: Result<Order, Error>, second: Result<Order, Error>)
    requires store.Valid() && ValidSeed(seed1) && ValidSeed(seed2)
    modifies store
    ensures first.Ok? ==> second == Err(CannotRefund(Refunded))
  {
    first := store.RefundOrder(orderId, reason1, amount1, seed1, now);
    second := store.RefundOrder(orderId, reason2, amount2, seed2, now);
  }
}
