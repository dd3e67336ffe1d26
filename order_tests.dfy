/**
 The domain tests of the Order aggregate, each restated as a method that
 builds the same order, performs the same calls, and promises what the test
 asserts. The fixture's "valid order" is a fresh Pending order with no items
 and no discount; the test's Guid-valued ids are parameters here, and the
 concrete quantities and prices are generalised to any values.
 */
module OrderTests {
  import opened Orders

  /** A new order accepts Cancel, after which it is no longer Pending, and rejects AddItem. */
  method AddItemToCancelledOrder(orderId: OrderId, customerId: CustomerId, item: OrderItem)
    returns (cancelled: Outcome, statusAfterCancel: OrderStatus, result: Outcome)
    ensures cancelled == Ok
    ensures statusAfterCancel != Pending
    ensures result == DomainError(Order_CannotAddItemToNonPendingStatus)
  {
    var order := new Order(orderId, customerId);
    cancelled := order.Cancel();
    statusAfterCancel := order.status;
    result := order.AddItem(item);
  }

  /** An item added while Pending cannot be removed once the order is cancelled. */
  method RemoveItemFromCancelledOrder(orderId: OrderId, customerId: CustomerId, item: OrderItem)
    returns (added: Outcome, result: Outcome)
    ensures added == Ok
    ensures result == DomainError(Order_CannotRemoveItemToNonPendingStatus)
  {
    var order := new Order(orderId, customerId);
    added := order.AddItem(item);
    var cancelled := order.Cancel();
    result := order.RemoveItem(item.id);
  }

  method ReceiveCancelledOrder(orderId: OrderId, customerId: CustomerId) returns (result: Outcome)
    ensures result == DomainError(Order_CannotReceiveToNonPendingStatus)
  {
    var order := new Order(orderId, customerId);
    var cancelled := order.Cancel();
    result := order.Receive();
  }

  method ApplyDiscountToCancelledOrder(orderId: OrderId, customerId: CustomerId, discount: real)
    returns (result: Outcome)
    ensures result == DomainError(Order_CannotApplyDiscountToNonPendingStatus)
  {
    var order := new Order(orderId, customerId);
    var cancelled := order.Cancel();
    result := order.ApplyDiscount(discount);
  }

  method PrepareCancelledOrder(orderId: OrderId, customerId: CustomerId) returns (result: Outcome)
    ensures result == DomainError(Order_CannotPrepareToNonReceivedStatus)
  {
    var order := new Order(orderId, customerId);
    var cancelled := order.Cancel();
    result := order.Prepare();
  }

  method DeliverCancelledOrder(orderId: OrderId, customerId: CustomerId) returns (result: Outcome)
    ensures result == DomainError(Order_CannotDeliverToNonReadyStatus)
  {
    var order := new Order(orderId, customerId);
    var cancelled := order.Cancel();
    result := order.Deliver();
  }

  /**
   The same item added four times is held four times and counts four times
   (the test uses 7 at 10.42).
   */
  method AmountOfRepeatedItem(orderId: OrderId, customerId: CustomerId, item: OrderItem)
    returns (items: seq<OrderItem>, amount: real)
    ensures items == seq(4, _ => item)
    ensures amount == Subtotal(items)
    ensures amount == item.quantity as real * item.unitPrice * 4.0
  {
    var order := new Order(orderId, customerId);
    var r1 := order.AddItem(item);
    var r2 := order.AddItem(item);
    var r3 := order.AddItem(item);
    var r4 := order.AddItem(item);
    items, amount := order.items, order.Amount();
    assert items == seq(4, _ => item);
    SubtotalOfCopies(item, 4);
  }

  /** One item then a discount while Pending: the amount is the line total less the discount (the test uses 7 at 10.42, less 9.76). */
  method AmountAfterDiscount(orderId: OrderId, customerId: CustomerId, item: OrderItem, discount: real)
    returns (amount: real)
    ensures amount == item.quantity as real * item.unitPrice - discount
  {
    var order := new Order(orderId, customerId);
    var added := order.AddItem(item);
    var applied := order.ApplyDiscount(discount);
    amount := order.Amount();
  }
}
