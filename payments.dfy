/**
 The ConfirmPayment command: look a payment up by id, fail with the
 application error Payment_PaymentNotFound when there is none, otherwise
 confirm it. What Payment.Confirm does to the payment is not modelled; the
 model records only how many times it was called on each payment.
 */
module Payments {

  type PaymentId = nat

  datatype Unit = Unit

  /** Resource keys of the application exceptions. */
  datatype AppErrorCode = Payment_PaymentNotFound

  datatype Result<T> = Success(value: T) | Failure(error: AppErrorCode)

  datatype ConfirmPaymentCommand = ConfirmPaymentCommand(id: PaymentId)

  class Payment {
    const id: PaymentId
    /** Number of Confirm() calls made on this payment. */
    ghost var confirmations: nat

    constructor (id: PaymentId)
      ensures this.id == id && confirmations == 0
    {
      this.id := id;
      confirmations := 0;
    }

    method Confirm()
      modifies this
      ensures confirmations == old(confirmations) + 1
    {
      confirmations := confirmations + 1;
    }
  }

  /** The payment store, keyed by payment id. */
  class PaymentRepository {
    var payments: map<PaymentId, Payment>

    /** Every payment is stored under its own id. */
    ghost predicate Valid()
      reads this
    {
      forall k :: k in payments ==> payments[k].id == k
    }

    constructor ()
      ensures payments == map[] && Valid()
    {
      payments := map[];
    }

    /** The stored payment, or null when the id is unknown. */
    method GetById(id: PaymentId) returns (p: Payment?)
      ensures id in payments ==> p == payments[id]
      ensures id !in payments ==> p == null
    {
      p := if id in payments then payments[id] else null;
    }
  }

  class ConfirmPaymentCommandHandler {
    const repo: PaymentRepository

    constructor (repo: PaymentRepository)
      ensures this.repo == repo
    {
      this.repo := repo;
    }

    /**
     Unknown id: fails and changes nothing. Known id: confirms that payment
     exactly once, touches no other payment, and returns Unit.
     */
    method Handle(request: ConfirmPaymentCommand) returns (r: Result<Unit>)
      requires repo.Valid()
      modifies if request.id in repo.payments then {repo.payments[request.id]} else {}
      ensures repo.payments == old(repo.payments)
      ensures r == (if request.id in repo.payments then Success(Unit) else Failure(Payment_PaymentNotFound))
      ensures request.id in repo.payments ==>
        repo.payments[request.id].confirmations == old(repo.payments[request.id].confirmations) + 1
      ensures forall k :: k in repo.payments && k != request.id ==>
        repo.payments[k].confirmations == old(repo.payments[k].confirmations)
    {
      var payment := repo.GetById(request.id);
      if payment == null {
        return Failure(Payment_PaymentNotFound);
      }
      payment.Confirm();
      r := Success(Unit);
    }
  }
}
