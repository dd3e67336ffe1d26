/**
 The Order aggregate of the TechFood domain: its status machine, its owned
 line items, its discount and the amount derived from them.

 Every mutator of the C# entity throws a DomainException carrying a resource
 key when its guard fails; here each returns an Outcome instead, and a failed
 guard leaves the order exactly as it was.
 */
module Orders {

  type OrderId = nat
  type CustomerId = nat
  type ProductId = nat
  type ItemId = nat

  datatype OrderStatus = Pending | Received | InPreparation | Ready | Delivered | Cancelled

  /** The resource keys of the domain exceptions an Order raises. */
  datatype ErrorCode =
    | Order_CannotAddItemToNonPendingStatus
    | Order_CannotRemoveItemToNonPendingStatus
    | Order_CannotApplyDiscountToNonPendingStatus
    | Order_CannotReceiveToNonPendingStatus
    | Order_CannotPrepareToNonReceivedStatus
    | Order_CannotReadyToNonInPreparationStatus
    | Order_CannotDeliverToNonReadyStatus
    | Order_CannotCancelToNonPendingStatus
    | Order_ItemNotFound

  datatype Outcome = Ok | DomainError(code: ErrorCode)

  /** A line item: the product, how many, and the unit price snapshotted when it was added. */
  datatype OrderItem = OrderItem(id: ItemId, productId: ProductId, quantity: int, unitPrice: real)

  function LineTotal(item: OrderItem): real
  {
    item.quantity as real * item.unitPrice
  }

  /** Sum of quantity times unit price over the items. */
  function Subtotal(items: seq<OrderItem>): real
  {
    if items == [] then 0.0 else LineTotal(items[0]) + Subtotal(items[1..])
  }

  /** The subtotal of two runs of items is the sum of their subtotals. */
  lemma {:induction false} SubtotalConcat(a: seq<OrderItem>, b: seq<OrderItem>)
    ensures Subtotal(a + b) == Subtotal(a) + Subtotal(b)
  {
    if a != [] {
      assert (a + b)[1..] == a[1..] + b;
      SubtotalConcat(a[1..], b);
    } else {
      assert a + b == b;
    }
  }

  /** Appending an item adds exactly its line total. */
  lemma SubtotalAppend(items: seq<OrderItem>, item: OrderItem)
    ensures Subtotal(items + [item]) == Subtotal(items) + LineTotal(item)
  {
    SubtotalConcat(items, [item]);
    assert Subtotal([item]) == LineTotal(item) + Subtotal([]);
  }

  /** Removing the item at position k takes away exactly its line total. */
  lemma SubtotalRemoveAt(items: seq<OrderItem>, k: nat)
    requires k < |items|
    ensures Subtotal(items[..k] + items[k + 1..]) == Subtotal(items) - LineTotal(items[k])
  {
    assert items == items[..k] + ([items[k]] + items[k + 1..]);
    SubtotalConcat(items[..k], [items[k]] + items[k + 1..]);
    SubtotalConcat(items[..k], items[k + 1..]);
    assert ([items[k]] + items[k + 1..])[1..] == items[k + 1..];
  }

  /** n copies of one item count n times. */
  lemma {:induction false} SubtotalOfCopies(item: OrderItem, n: nat)
    ensures Subtotal(seq(n, _ => item)) == n as real * LineTotal(item)
  {
    var copies := seq(n, _ => item);
    if n > 0 {
      var rest := seq(n - 1, _ => item);
      assert copies[1..] == rest;
      SubtotalOfCopies(item, n - 1);
      var line := LineTotal(item);
      assert Subtotal(copies) == line + Subtotal(rest);
      assert n as real * line == line + (n - 1) as real * line;
    }
  }

  /** True when some item of the order carries this id. */
  predicate HasItem(items: seq<OrderItem>, itemId: ItemId)
  {
    exists i :: 0 <= i < |items| && items[i].id == itemId
  }

  /** Position of the first item with this id, or |items| when there is none. */
  function FirstIndexOf(items: seq<OrderItem>, itemId: ItemId): (k: nat)
    ensures k <= |items|
    ensures k < |items| ==> items[k].id == itemId
    ensures forall j :: 0 <= j < k ==> items[j].id != itemId
    ensures k < |items| <==> HasItem(items, itemId)
  {
    if items == [] then 0
    else if items[0].id == itemId then 0
    else 1 + FirstIndexOf(items[1..], itemId)
  }

  class Order {
    const id: OrderId
    const customerId: CustomerId
    var status: OrderStatus
    var items: seq<OrderItem>
    var discount: real

    /** A new order is Pending, has no items and no discount. */
    constructor (id: OrderId, customerId: CustomerId)
      ensures this.id == id && this.customerId == customerId
      ensures status == Pending && items == [] && discount == 0.0
      ensures Amount() == 0.0
    {
      this.id := id;
      this.customerId := customerId;
      status := Pending;
      items := [];
      discount := 0.0;
    }

    /** Always derived from the current items and discount, never cached. */
    function Amount(): real
      reads this
    {
      Subtotal(items) - discount
    }

    method AddItem(item: OrderItem) returns (r: Outcome)
      modifies this
      ensures r == (if old(status) == Pending then Ok else DomainError(Order_CannotAddItemToNonPendingStatus))
      ensures r.Ok? ==> items == old(items) + [item] && Amount() == old(Amount()) + LineTotal(item)
      ensures r.DomainError? ==> unchanged(this)
      ensures status == old(status) && discount == old(discount)
    {
      if status != Pending {
        return DomainError(Order_CannotAddItemToNonPendingStatus);
      }
      SubtotalAppend(items, item);
      items := items + [item];
      r := Ok;
    }

    /** Removes the first item carrying itemId. */
    method RemoveItem(itemId: ItemId) returns (r: Outcome)
      modifies this
      ensures old(status) != Pending ==> r == DomainError(Order_CannotRemoveItemToNonPendingStatus)
      ensures old(status) == Pending && !HasItem(old(items), itemId) ==> r == DomainError(Order_ItemNotFound)
      ensures r.Ok? <==> old(status) == Pending && HasItem(old(items), itemId)
      ensures r.Ok? ==>
        var k := FirstIndexOf(old(items), itemId);
        items == old(items)[..k] + old(items)[k + 1..] &&
        Amount() == old(Amount()) - LineTotal(old(items)[k])
      ensures r.DomainError? ==> unchanged(this)
      ensures status == old(status) && discount == old(discount)
    {
      if status != Pending {
        return DomainError(Order_CannotRemoveItemToNonPendingStatus);
      }
      var k := FirstIndexOf(items, itemId);
      if k == |items| {
        return DomainError(Order_ItemNotFound);
      }
      SubtotalRemoveAt(items, k);
      items := items[..k] + items[k + 1..];
      r := Ok;
    }

    method ApplyDiscount(amount: real) returns (r: Outcome)
      modifies this
      ensures r == (if old(status) == Pending then Ok else DomainError(Order_CannotApplyDiscountToNonPendingStatus))
      ensures r.Ok? ==> discount == amount && Amount() == Subtotal(items) - amount
      ensures r.DomainError? ==> unchanged(this)
      ensures status == old(status) && items == old(items)
    {
      if status != Pending {
        return DomainError(Order_CannotApplyDiscountToNonPendingStatus);
      }
      discount := amount;
      r := Ok;
    }

    method Cancel() returns (r: Outcome)
      modifies this
      ensures r == (if old(status) == Pending then Ok else DomainError(Order_CannotCancelToNonPendingStatus))
      ensures status == (if r.Ok? then Cancelled else old(status))
      ensures items == old(items) && discount == old(discount)
    {
      if status != Pending {
        return DomainError(Order_CannotCancelToNonPendingStatus);
      }
      status := Cancelled;
      r := Ok;
    }

    method Receive() returns (r: Outcome)
      modifies this
      ensures r == (if old(status) == Pending then Ok else DomainError(Order_CannotReceiveToNonPendingStatus))
      ensures status == (if r.Ok? then Received else old(status))
      ensures items == old(items) && discount == old(discount)
    {
      if status != Pending {
        return DomainError(Order_CannotReceiveToNonPendingStatus);
      }
      status := Received;
      r := Ok;
    }

    method Prepare() returns (r: Outcome)
      modifies this
      ensures r == (if old(status) == Received then Ok else DomainError(Order_CannotPrepareToNonReceivedStatus))
      ensures status == (if r.Ok? then InPreparation else old(status))
      ensures items == old(items) && discount == old(discount)
    {
      if status != Received {
        return DomainError(Order_CannotPrepareToNonReceivedStatus);
      }
      status := InPreparation;
      r := Ok;
    }

    method Ready() returns (r: Outcome)
      modifies this
      ensures r == (if old(status) == InPreparation then Ok else DomainError(Order_CannotReadyToNonInPreparationStatus))
      ensures status == (if r.Ok? then OrderStatus.Ready else old(status))
      ensures items == old(items) && discount == old(discount)
    {
      if status != InPreparation {
        return DomainError(Order_CannotReadyToNonInPreparationStatus);
      }
      status := OrderStatus.Ready;
      r := Ok;
    }

    method Deliver() returns (r: Outcome)
      modifies this
      ensures r == (if old(status) == OrderStatus.Ready then Ok else DomainError(Order_CannotDeliverToNonReadyStatus))
      ensures status == (if r.Ok? then Delivered else old(status))
      ensures items == old(items) && discount == old(discount)
    {
      if status != OrderStatus.Ready {
        return DomainError(Order_CannotDeliverToNonReadyStatus);
      }
      status := Delivered;
      r := Ok;
    }
  }
}
