/** PaymentServiceImpl: payment processing and refunds over a keyed store,
    with the events they send and the fallbacks that answer when a call is
    rejected or throws past its own catch block. */
module Payments {
  import opened Wrappers
  import opened Environment
  import opened Decimal
  import opened KeyedStore
  import opened PaymentModel

  /** Where the body of processPayment or refundPayment may throw inside its
      try block: the simulated gateway call (Thread.sleep interrupted), the
      repository save (nothing persisted), or the Kafka send (the record is
      already persisted, no event goes out). The message is getMessage(). */
  datatype Fault =
    | NoFault
    | GatewayInterrupted(message: string)
    | SaveFails(message: string)
    | SendFails(message: string)

  const Unavailable := "Payment service is currently unavailable. Please try again later."
  const RefundUnavailable := "Refund service is currently unavailable. Please try again later."

  /** The text of the Kafka message for an event. */
  function EventMessage(e: PaymentEvent): string {
    match e
    case PaymentProcessed(id) => "Payment processed: " + IntToString(id)
    case PaymentRefunded(id) => "Payment refunded: " + IntToString(id)
  }

  /** The Kafka payload determines the event: distinct events are sent as
      distinct texts, so a consumer can recover the kind and the id. */
  lemma EventMessageInjective(e1: PaymentEvent, e2: PaymentEvent)
    ensures EventMessage(e1) == EventMessage(e2) <==> e1 == e2
  {
    if e1.PaymentProcessed? && e2.PaymentProcessed? {
      if EventMessage(e1) == EventMessage(e2) {
        PrefixedIdInjective("Payment processed: ", e1.id, e2.id);
      }
    } else if e1.PaymentRefunded? && e2.PaymentRefunded? {
      if EventMessage(e1) == EventMessage(e2) {
        PrefixedIdInjective("Payment refunded: ", e1.id, e2.id);
      }
    } else {
      // Messages of different kinds differ in their ninth character.
      assert EventMessage(e1)[8] != EventMessage(e2)[8];
    }
  }

  // ---------------------------------------------------------------------------
  // Responses

  /** A response that describes a stored payment in full. */
  function MapToPaymentResponse(p: Payment, message: string): (r: PaymentResponse)
    ensures RecordOf(r) == Some(p)
    ensures r.message == message
  {
    PaymentResponse(Some(p.id), Some(p.orderId), Some(p.amount), Some(p.paymentMethod),
                    p.transactionId, Some(p.paymentDate), Some(p.status), message)
  }

  /** The in-memory answer when processPayment is rejected: the request echoed
      with status FAILED, no id, no transaction id and no date. */
  function ProcessPaymentFallback(request: PaymentRequest): (r: PaymentResponse)
    ensures RecordOf(r) == None && r.id == None && r.transactionId == None && r.paymentDate == None
    ensures r.orderId == Some(request.orderId) && r.amount == Some(request.amount)
    ensures r.paymentMethod == Some(request.paymentMethod)
    ensures r.status == Some(FAILED) && r.message == Unavailable
  {
    MessageOnly(Unavailable).(orderId := Some(request.orderId), amount := Some(request.amount),
                              paymentMethod := Some(request.paymentMethod), status := Some(FAILED))
  }

  function GetPaymentByIdFallback(paymentId: int): (r: PaymentResponse)
    ensures RecordOf(r) == None && r.id == Some(paymentId) && r.status == None
    ensures r.message == Unavailable
  {
    MessageOnly(Unavailable).(id := Some(paymentId))
  }

  function GetPaymentsByOrderIdFallback(orderId: int): (rs: seq<PaymentResponse>)
    ensures |rs| == 1 && RecordOf(rs[0]) == None
    ensures rs[0].orderId == Some(orderId) && rs[0].id == None && rs[0].message == Unavailable
  {
    [MessageOnly(Unavailable).(orderId := Some(orderId))]
  }

  function RefundPaymentFallback(paymentId: int): (r: PaymentResponse)
    ensures RecordOf(r) == None && r.id == Some(paymentId) && r.transactionId == None
    ensures r.status == Some(FAILED) && r.message == RefundUnavailable
  {
    MessageOnly(RefundUnavailable).(id := Some(paymentId), status := Some(FAILED))
  }

  /** The stream map of a lookup: each listed payment mapped with message. */
  function MapPayments(st: map<int, Payment>, ids: seq<int>, message: string): (rs: seq<PaymentResponse>)
    requires forall k :: 0 <= k < |ids| ==> ids[k] in st
    ensures |rs| == |ids|
    ensures forall k :: 0 <= k < |rs| ==> rs[k] == MapToPaymentResponse(st[ids[k]], message)
    ensures forall id :: id in ids ==> MapToPaymentResponse(st[id], message) in rs
    decreases |ids|
  {
    if ids == [] then []
    else [MapToPaymentResponse(st[ids[0]], message)] + MapPayments(st, ids[1..], message)
  }

  // ---------------------------------------------------------------------------
  // Transitions of one payment

  /** A payment carries a transaction id exactly when it did not fail: it is
      COMPLETED exactly when it has one, unless it was since refunded. */
  predicate HasConsistentTransaction(p: Payment) {
    p.transactionId.Some? <==> p.status != FAILED
  }

  /** Only a COMPLETED payment may be refunded. */
  predicate CanRefund(status: PaymentStatus) {
    status == COMPLETED
  }

  /** The payment after a permitted refund: only its status changes, and it
      cannot be refunded again. */
  function Refunded(p: Payment): (r: Payment)
    ensures r.status == REFUNDED && r.(status := p.status) == p
    ensures !CanRefund(r.status)
    ensures CanRefund(p.status) && HasConsistentTransaction(p) ==> HasConsistentTransaction(r)
  {
    p.(status := REFUNDED)
  }

  // ---------------------------------------------------------------------------
  // The service

  class PaymentService {
    /** The payment repository, keyed by id. */
    var store: map<int, Payment>
    /** The next identity value the repository will assign. */
    var nextId: int
    /** Everything sent to the "payment-events" topic, oldest first. */
    var events: seq<PaymentEvent>

    ghost predicate Valid()
      reads this
    {
      1 <= nextId &&
      forall id :: id in store ==> 1 <= id < nextId && store[id].id == id && HasConsistentTransaction(store[id])
    }

    constructor ()
      ensures Valid() && store == map[] && nextId == 1 && events == []
    {
      store, nextId, events := map[], 1, [];
    }

    /** The repository's save of a new entity: it is given the next id. */
    method SaveNew(p: Payment) returns (saved: Payment)
      requires Valid() && HasConsistentTransaction(p)
      modifies this
      ensures Valid() && events == old(events)
      ensures saved == p.(id := old(nextId)) && old(nextId) !in old(store)
      ensures store == old(store)[saved.id := saved] && nextId == old(nextId) + 1
    {
      saved := p.(id := nextId);
      store := store[nextId := saved];
      nextId := nextId + 1;
    }

    /** The catch block of processPayment: a FAILED payment without a
        transaction id is saved, and no event is sent. */
    method SaveFailedPayment(request: PaymentRequest, failedAt: Timestamp, reason: string)
      returns (r: PaymentResponse)
      requires Valid()
      modifies this
      ensures Valid() && events == old(events) && nextId == old(nextId) + 1
      ensures store == old(store)[old(nextId) := Payment(old(nextId), request.orderId, request.amount,
                                                         request.paymentMethod, None, failedAt, FAILED)]
      ensures r == MapToPaymentResponse(store[old(nextId)], "Payment processing failed: " + reason)
    {
      var payment := Payment(0, request.orderId, request.amount, request.paymentMethod, None, failedAt, FAILED);
      payment := SaveNew(payment);
      r := MapToPaymentResponse(payment, "Payment processing failed: " + reason);
    }

    /** transactionId is the fresh random UUID text; paidAt and failedAt are the
        clock readings of the success path and of the catch block. */
    method ProcessPayment(request: PaymentRequest, transactionId: string, paidAt: Timestamp, failedAt: Timestamp,
                          admission: Admission, fault: Fault)
      returns (r: PaymentResponse)
      requires Valid()
      modifies this
      ensures Valid()
      ensures admission == Rejected ==> unchanged(this) && r == ProcessPaymentFallback(request)
      ensures forall id :: id in old(store) ==> id in store && store[id] == old(store)[id]
      ensures forall id :: id in store && id !in old(store) ==>
        (store[id].status == COMPLETED <==> store[id].transactionId.Some?)
      ensures admission == Admitted && fault.NoFault? ==>
        var id := old(nextId);
        && store == old(store)[id := Payment(id, request.orderId, request.amount, request.paymentMethod,
                                             Some(transactionId), paidAt, COMPLETED)]
        && nextId == id + 1 && events == old(events) + [PaymentProcessed(id)]
        && r == MapToPaymentResponse(store[id], "Payment processed successfully")
      ensures admission == Admitted && (fault.GatewayInterrupted? || fault.SaveFails?) ==>
        var id := old(nextId);
        && store == old(store)[id := Payment(id, request.orderId, request.amount, request.paymentMethod,
                                             None, failedAt, FAILED)]
        && nextId == id + 1 && events == old(events)
        && r == MapToPaymentResponse(store[id], "Payment processing failed: " + fault.message)
      ensures admission == Admitted && fault.SendFails? ==>
        var id := old(nextId);
        && store == old(store)[id := Payment(id, request.orderId, request.amount, request.paymentMethod,
                                             Some(transactionId), paidAt, COMPLETED)]
                              [id + 1 := Payment(id + 1, request.orderId, request.amount, request.paymentMethod,
                                                 None, failedAt, FAILED)]
        && nextId == id + 2 && events == old(events)
        && r == MapToPaymentResponse(store[id + 1], "Payment processing failed: " + fault.message)
    {
      if admission == Rejected {
        return ProcessPaymentFallback(request);
      }
      if fault.GatewayInterrupted? || fault.SaveFails? {
        r := SaveFailedPayment(request, failedAt, fault.message);
        return;
      }
      var payment := Payment(0, request.orderId, request.amount, request.paymentMethod,
                             Some(transactionId), paidAt, COMPLETED);
      payment := SaveNew(payment);
      if fault.SendFails? {
        r := SaveFailedPayment(request, failedAt, fault.message);
        return;
      }
      events := events + [PaymentProcessed(payment.id)];
      r := MapToPaymentResponse(payment, "Payment processed successfully");
    }

    /** A not-found id throws outside any catch block, so the fallback answers. */
    function GetPaymentById(paymentId: int, admission: Admission): (r: PaymentResponse)
      reads this
      ensures admission == Admitted && paymentId in store ==>
        RecordOf(r) == Some(store[paymentId]) && r.message == "Payment retrieved successfully"
      ensures admission == Rejected || paymentId !in store ==> r == GetPaymentByIdFallback(paymentId)
    {
      if admission == Admitted && paymentId in store
      then MapToPaymentResponse(store[paymentId], "Payment retrieved successfully")
      else GetPaymentByIdFallback(paymentId)
    }

    function GetPaymentsByOrderId(orderId: int, admission: Admission): (rs: seq<PaymentResponse>)
      reads this
      requires Valid()
      ensures admission == Rejected ==> rs == GetPaymentsByOrderIdFallback(orderId)
      ensures admission == Admitted ==> forall k :: 0 <= k < |rs| ==>
        rs[k].id.Some? && rs[k].id.value in store && store[rs[k].id.value].orderId == orderId &&
        rs[k] == MapToPaymentResponse(store[rs[k].id.value], "Payment retrieved successfully")
      ensures admission == Admitted ==> forall id :: id in store && store[id].orderId == orderId ==>
        MapToPaymentResponse(store[id], "Payment retrieved successfully") in rs
      ensures admission == Admitted ==> forall j, k :: 0 <= j < k < |rs| ==> rs[j].id.value < rs[k].id.value
    {
      if admission == Rejected then GetPaymentsByOrderIdFallback(orderId)
      else
        var st := store;
        MapPayments(st, IdsWhere(st, (p: Payment) => p.orderId == orderId, 1, nextId),
                    "Payment retrieved successfully")
    }

    method RefundPayment(paymentId: int, admission: Admission, fault: Fault) returns (r: PaymentResponse)
      requires Valid()
      modifies this
      ensures Valid() && nextId == old(nextId)
      ensures admission == Rejected || paymentId !in old(store) ==>
        unchanged(this) && r == RefundPaymentFallback(paymentId)
      ensures admission == Admitted && paymentId in old(store) && !CanRefund(old(store)[paymentId].status) ==>
        unchanged(this) &&
        r == MapToPaymentResponse(old(store)[paymentId], "Cannot refund payment that is not completed")
      ensures admission == Admitted && paymentId in old(store) && CanRefund(old(store)[paymentId].status) ==>
        var p := old(store)[paymentId];
        && store == (if fault.NoFault? || fault.SendFails? then old(store)[paymentId := Refunded(p)] else old(store))
        && events == (if fault.NoFault? then old(events) + [PaymentRefunded(paymentId)] else old(events))
        && r == (if fault.NoFault? then MapToPaymentResponse(Refunded(p), "Payment refunded successfully")
                 else if fault.GatewayInterrupted? then MapToPaymentResponse(p, "Refund processing failed: " + fault.message)
                 else MapToPaymentResponse(Refunded(p), "Refund processing failed: " + fault.message))
    {
      if admission == Rejected || paymentId !in store {
        return RefundPaymentFallback(paymentId);
      }
      var payment := store[paymentId];
      if !CanRefund(payment.status) {
        return MapToPaymentResponse(payment, "Cannot refund payment that is not completed");
      }
      if fault.GatewayInterrupted? {
        return MapToPaymentResponse(payment, "Refund processing failed: " + fault.message);
      }
      payment := payment.(status := REFUNDED);
      if fault.SaveFails? {
        return MapToPaymentResponse(payment, "Refund processing failed: " + fault.message);
      }
      store := store[paymentId := payment];
      if fault.SendFails? {
        return MapToPaymentResponse(payment, "Refund processing failed: " + fault.message);
      }
      events := events + [PaymentRefunded(payment.id)];
      r := MapToPaymentResponse(payment, "Payment refunded successfully");
    }
  }

  /** Refunding the same payment twice: the first call refunds it, the second
      is refused without changing anything, and one event is sent in all. */
  method RefundTwice(service: PaymentService, paymentId: int) returns (first: PaymentResponse, second: PaymentResponse)
    requires service.Valid() && paymentId in service.store && service.store[paymentId].status == COMPLETED
    modifies service
    ensures service.Valid()
    ensures first.status == Some(REFUNDED) && first.message == "Payment refunded successfully"
    ensures second.status == Some(REFUNDED) && second.message == "Cannot refund payment that is not completed"
    ensures service.store == old(service.store)[paymentId := Refunded(old(service.store)[paymentId])]
    ensures service.events == old(service.events) + [PaymentRefunded(paymentId)]
  {
    first := service.RefundPayment(paymentId, Admitted, NoFault);
    second := service.RefundPayment(paymentId, Admitted, NoFault);
  }
}
