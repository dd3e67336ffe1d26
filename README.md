# TechFood order lifecycle and payment confirmation, in Dafny

This project models two parts of the TechFood restaurant backend:

- The **Order aggregate** (module `Orders`, file `orders.dfy`). An order has a
  status (`Pending`, `Received`, `InPreparation`, `Ready`, `Delivered`,
  `Cancelled`), an owned sequence of line items (item id, product id,
  quantity, unit price) and a discount. `Amount` is always derived: it is the
  sum of quantity × unit price over the items, less the discount. The
  mutators are `AddItem`, `RemoveItem`, `ApplyDiscount`, `Cancel`, `Receive`,
  `Prepare`, `Ready` and `Deliver`. Each checks the order's status first. When
  the check fails it returns a `DomainError` with the resource key of the C#
  `DomainException` and leaves the order unchanged.
- The **domain tests of the Order** (module `OrderTests`, file
  `order_tests.dfy`). Each xUnit test becomes a method that builds the same
  order and makes the same calls. Its postcondition is what the test asserts,
  proved for every item, price and discount rather than for the test's one
  example.
- The **ConfirmPayment command handler** (module `Payments`, file
  `payments.dfy`). It looks a payment up by id in a repository, modelled as a
  `map` from id to `Payment` object. If there is none it fails with
  `Payment_PaymentNotFound`. Otherwise it calls `Confirm()` on that payment
  once and returns `Unit`.

C# `decimal` prices and discounts are modelled as exact `real`s. Guid ids
are natural-number parameters. The handler is synchronous.

The Order entity's own code is not modelled; its behaviour is taken from its
tests and from its resource keys. The forward transitions follow the resource-key names the tests use:
`Prepare` needs `Received` and `Deliver` needs `Ready`. Three keys are not
visible and are named here by analogy with the others:

- `Order_CannotReadyToNonInPreparationStatus`, for `Ready` outside `InPreparation`;
- `Order_CannotCancelToNonPendingStatus`, for `Cancel` outside `Pending`;
- `Order_ItemNotFound`, for `RemoveItem` with an unknown item id.

`RemoveItem` checks the status first. The model then assumes it removes only
the first item with the given id, which matters when the same item has been
added several times.

The test at tests/TechFood.Doman.Tests/OrderTests.cs:102-117 is named
"Validate Prepare when Order is Received", but it calls `Receive`. It is
therefore the same scenario as the `Receive` test at lines 68-83, and
`OrderTests.ReceiveCancelledOrder` covers both. Likewise the test at
lines 119-134 is named "Validate Ready when Order is InPreparation", but it
calls `Prepare` and asserts `Order_CannotPrepareToNonReceivedStatus`. No test
calls `Ready`; its `InPreparation` guard comes from that test's name alone.

## Model

| member | source | states |
|---|---|---|
| `Orders.Order.constructor` | tests/TechFood.Doman.Tests/OrderTests.cs:27-28 | a new order is Pending, with no items, no discount and amount 0 |
| `Orders.Order.AddItem` | tests/TechFood.Doman.Tests/OrderTests.cs:30-41 | Ok exactly when Pending, and then the item is appended and the amount grows by its line total; otherwise Order_CannotAddItemToNonPendingStatus and the order is unchanged |
| `Orders.Order.RemoveItem` | tests/TechFood.Doman.Tests/OrderTests.cs:57-65 | outside Pending fails with Order_CannotRemoveItemToNonPendingStatus; Ok exactly when Pending and the id is present, and then the first item with that id is removed and the amount drops by its line total; every failure leaves the order unchanged |
| `Orders.Order.ApplyDiscount` | tests/TechFood.Doman.Tests/OrderTests.cs:93-99 | Ok exactly when Pending, and then the amount is subtotal minus the new discount; otherwise Order_CannotApplyDiscountToNonPendingStatus and the order is unchanged |
| `Orders.Order.Cancel` | tests/TechFood.Doman.Tests/OrderTests.cs:28-30 | from Pending the status becomes Cancelled; items and discount are kept |
| `Orders.Order.Receive` | tests/TechFood.Doman.Tests/OrderTests.cs:76-82 | Pending becomes Received; any other status fails with Order_CannotReceiveToNonPendingStatus and keeps its status |
| `Orders.Order.Prepare` | tests/TechFood.Doman.Tests/OrderTests.cs:127-133 | Received becomes InPreparation; any other status fails with Order_CannotPrepareToNonReceivedStatus and keeps its status |
| `Orders.Order.Ready` | tests/TechFood.Doman.Tests/OrderTests.cs:119-121 | InPreparation becomes Ready; any other status fails and keeps its status |
| `Orders.Order.Deliver` | tests/TechFood.Doman.Tests/OrderTests.cs:144-150 | Ready becomes Delivered; any other status fails with Order_CannotDeliverToNonReadyStatus and keeps its status |
| `Orders.LineTotal` | tests/TechFood.Doman.Tests/OrderTests.cs:161-164 | one item's contribution to the amount: its quantity × its unit price |
| `Orders.Subtotal` | tests/TechFood.Doman.Tests/OrderTests.cs:174 | the sum of quantity × unit price over the items, in order; zero for no items |
| `Orders.Order.Amount` | tests/TechFood.Doman.Tests/OrderTests.cs:174-196 | Subtotal(items) − discount, worked out from the current state on every read |
| `Orders.SubtotalConcat` | tests/TechFood.Doman.Tests/OrderTests.cs:166-174 | the subtotal of two runs of items is the sum of their subtotals |
| `Orders.SubtotalAppend` | tests/TechFood.Doman.Tests/OrderTests.cs:166-169 | adding an item adds exactly its quantity × unit price to the subtotal |
| `Orders.SubtotalRemoveAt` | tests/TechFood.Doman.Tests/OrderTests.cs:57-62 | removing the item at a position takes exactly its line total off the subtotal |
| `Orders.SubtotalOfCopies` | tests/TechFood.Doman.Tests/OrderTests.cs:161-174 | n copies of one item have subtotal n × quantity × unit price |
| `Orders.FirstIndexOf` | tests/TechFood.Doman.Tests/OrderTests.cs:62 | the index of the first item with the id; it equals the item count exactly when no item has that id |
| `OrderTests.AddItemToCancelledOrder` | tests/TechFood.Doman.Tests/OrderTests.cs:22-42 | a new order accepts Cancel and is then no longer Pending; AddItem then fails with Order_CannotAddItemToNonPendingStatus |
| `OrderTests.RemoveItemFromCancelledOrder` | tests/TechFood.Doman.Tests/OrderTests.cs:44-66 | an item added while Pending cannot be removed once the order is cancelled: Order_CannotRemoveItemToNonPendingStatus |
| `OrderTests.ReceiveCancelledOrder` | tests/TechFood.Doman.Tests/OrderTests.cs:68-83 | Receive on a cancelled order fails with Order_CannotReceiveToNonPendingStatus (also the scenario of lines 102-117) |
| `OrderTests.ApplyDiscountToCancelledOrder` | tests/TechFood.Doman.Tests/OrderTests.cs:85-100 | ApplyDiscount on a cancelled order fails with Order_CannotApplyDiscountToNonPendingStatus, whatever the discount |
| `OrderTests.PrepareCancelledOrder` | tests/TechFood.Doman.Tests/OrderTests.cs:119-134 | Prepare on a cancelled order fails with Order_CannotPrepareToNonReceivedStatus |
| `OrderTests.DeliverCancelledOrder` | tests/TechFood.Doman.Tests/OrderTests.cs:136-151 | Deliver on a cancelled order fails with Order_CannotDeliverToNonReadyStatus |
| `OrderTests.AmountOfRepeatedItem` | tests/TechFood.Doman.Tests/OrderTests.cs:153-175 | the same item added four times leaves the order holding four copies of it, and the amount is their subtotal, 4 × quantity × unit price, for any item (the test uses 7 × 10.42) |
| `OrderTests.AmountAfterDiscount` | tests/TechFood.Doman.Tests/OrderTests.cs:177-197 | one item plus a discount gives amount quantity × unit price − discount, for any item and discount (the test uses 7 × 10.42 − 9.76) |
| `Payments.Payment.Confirm` | src/TechFood.Application/Payments/Commands/ConfirmPayment/ConfirmPaymentCommandHandler.cs:19 | its only modelled effect is to add one to the payment's ghost count of Confirm() calls |
| `Payments.PaymentRepository.GetById` | src/TechFood.Application/Payments/Commands/ConfirmPayment/ConfirmPaymentCommandHandler.cs:13 | returns the payment stored under the id, or null when there is none |
| `Payments.ConfirmPaymentCommandHandler.Handle` | src/TechFood.Application/Payments/Commands/ConfirmPayment/ConfirmPaymentCommandHandler.cs:11-22 | unknown id: Payment_PaymentNotFound and no payment changes; known id: Success(Unit), Confirm called exactly once on that payment and on no other, and the store itself is unchanged |

## Left out

- The Order entity's own code is not part of this model. Its behaviour is taken from its tests and from the resource-key names. The three keys listed above are assumed names.
- Orders.Order.Cancel: the behaviour of `Cancel` outside `Pending` is not visible. The model fails with an assumed key and leaves the order unchanged.
- Orders.Order.RemoveItem: the not-found case and the order of its two checks are not visible. The model checks the status first and then fails with an assumed key. Whether the first item or every item carrying the id is removed is not visible either; the model removes the first.
- Orders.Order.ApplyDiscount: there is no check that the discount is non-negative or at most the subtotal, because no such rule is visible. For the same reason the amount can be negative.
- The test fixture's `CreateValidOrder` is not part of this model. The scenarios read it as a fresh order that is Pending, has no items and has no discount, which the amount tests need.
- OrderItem construction: there is no quantity or price validation, because none is visible.
- Decimal range and rounding: C# `decimal` is modelled as an exact `real`. Overflow and the 28-digit precision limit are not modelled.
- Creation and status-change timestamps, and domain events: these need a clock and an event store, which are external collaborators.
- Payment.Confirm: its body is not visible. The model only counts calls to it and says nothing about what confirming does, including a second confirmation.
- Payments.ConfirmPaymentCommandHandler.Handle: `async`, the cancellation token, persistence and the unit-of-work commit are left out. The handler is modelled as a synchronous method, and the repository is an in-memory map whose entries are keyed by their own payment ids.
- Dependency injection, web-host startup and the QR-code payment result carrier are framework wiring or behaviourless data, so they are not modelled.
