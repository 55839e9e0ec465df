# Shipping and payment services: entity lifecycles in Dafny

This project models the two domain services of an order-fulfilment system:
`ShippingServiceImpl`, which creates shipments, moves them through their
statuses and cancels them, and `PaymentServiceImpl`, which processes payments
and refunds them. Each service is a class over a keyed store. The store is a
`map<int, Record>` standing in for the JPA repository, with an id counter for
the identity column. Each service also keeps the sequence of events it has sent
to its Kafka topic (`shipping-events`, `payment-events`). Every operation
returns a response datatype that mirrors `ShipmentResponse` or
`PaymentResponse`. A field the Java code leaves null is `None` there.

The environment enters as parameters:

- each `LocalDateTime.now()` reading is a `Timestamp` parameter. The Java code reads the clock
  separately for `createdAt` and `updatedAt`, and again for `shippedAt`/`deliveredAt`, so
  each reading is its own parameter;
- `UUID.randomUUID().toString()` is a `UuidText`, a string in the 8-4-4-4-12 lower-case hex format of
  `UUID.toString`, or any string for a transaction id;
- the verdict of the resilience policies is an `Admission`. `Rejected` means the named fallback
  answers and nothing changes;
- the place where a `try` block throws is a `Fault`: the simulated gateway call
  (`Thread.sleep` interrupted, payments only), the repository `findById` read (shipping's
  `updateShipmentStatus` and `cancelShipment`, the only reads inside a `try`), the repository `save`,
  or the Kafka `send`.

An exception that the method does not catch itself goes to the method's
fallback. In the model this is the not-found lookup in `getShipmentById`,
`getPaymentById` and `refundPayment`. A repository read that throws outside a `try`
(in the getters and in `refundPayment`) also goes to the fallback and changes
nothing, which is the answer a `Rejected` call gives.

Files:

- `common.dfy`: `Option`, `Timestamp`/`Admission`, splitting a text at a separator (`Text`),
  `Long.toString` with its inverse, and the derived query `IdsWhere` (the records that match a
  filter, in ascending id order).
- `shipping_model.dfy`, `payment_model.dfy`: the entities, requests, responses and events.
- `shipping_service.dfy`, `payment_service.dfy`: the services, their fallbacks, the per-record
  transitions and the lemmas about them.

What is proved:

- Store invariants, kept by every method:
  - every stored shipment has a `TRK-XXXXXXXX` tracking number;
  - a SHIPPED (DELIVERED) shipment has its `shippedAt` (`deliveredAt`) set;
  - a stored payment has a transaction id exactly when its status is not FAILED.
- The new store, event log and response of every operation, on every path.
- The inverse of the response mapping: `RecordOf(MapToShipmentResponse(s, m)) == Some(s)`. None of
  the `*Fallback` answers, `CreateShipmentEcho`, `UpdateShipmentStatusError` or `CancelShipmentError`
  describes a record. The catch answers of `processPayment` and `refundPayment` do describe one: the
  FAILED payment saved in the catch block, and the in-memory payment, which is REFUNDED unless the
  simulated gateway call was interrupted (then it is still COMPLETED).
- The tracking number's shape, and that lower-casing its suffix recovers the UUID prefix.
- The id rendering round trip, and that each Kafka message text determines its event.
- That the lookups return exactly the matching records.
- That across any run of status updates, `shippedAt`/`deliveredAt` hold the stamp of the last update
  to SHIPPED/DELIVERED, so they are never cleared.
- The double-cancel and double-refund scenarios.

Behaviour of the code worth noting:

- `createdAt` and `updatedAt` come from two separate clock readings
  (`ShippingServiceImpl.java:46-47`), so they need not be equal.
- `shippedAt`/`deliveredAt` are overwritten by every update to SHIPPED/DELIVERED, not set only once
  (`ShippingServiceImpl.java:138-142`).
- A not-found id in `getPaymentById`, `getShipmentById` and `refundPayment` is thrown, not returned, so
  the fallback answers (`PaymentServiceImpl.java:123-124`). The `getPaymentById` fallback carries the
  requested id.
- If the Kafka send throws after a successful save, the record stays saved and the catch block
  answers:
  - in `processPayment` a second, FAILED payment is then saved too;
  - in `createShipment`, `updateShipmentStatus` and `cancelShipment` the answer is an error response
    although the change was persisted.
- If the save in `refundPayment` throws, the response reports status REFUNDED, because the in-memory
  entity was already changed. The store keeps COMPLETED.

## Model

| member | source | states |
|---|---|---|
| `Shipping.GenerateTrackingNumber` | shipping-service/src/main/java/com/ecommerce/shipping/service/ShippingServiceImpl.java:205-208 | the result is "TRK-" followed by 8 upper-case hex digits, 12 characters, and lower-casing the 8 gives back the UUID's first 8 characters |
| `Shipping.MapToShipmentResponse` | shipping-service/src/main/java/com/ecommerce/shipping/service/ShippingServiceImpl.java:210-225 | the response carries the whole shipment (RecordOf recovers it exactly) and the given message |
| `Shipping.CreateShipmentEcho` | shipping-service/src/main/java/com/ecommerce/shipping/service/ShippingServiceImpl.java:56-61 | the catch answer of createShipment: no id, no tracking number, no record; orderId, carrier, address and notes echoed; status PENDING; the given message |
| `Shipping.CreateShipmentFallback` | shipping-service/src/main/java/com/ecommerce/shipping/service/ShippingServiceImpl.java:64-69 | the same echo with the "currently unavailable" message |
| `Shipping.GetShipmentByIdFallback` | shipping-service/src/main/java/com/ecommerce/shipping/service/ShippingServiceImpl.java:80-85 | only the requested id and the unavailable message; no record, no status |
| `Shipping.GetShipmentsByOrderIdFallback` | shipping-service/src/main/java/com/ecommerce/shipping/service/ShippingServiceImpl.java:97-102 | a single entry with the orderId and the unavailable message, no status and no record |
| `Shipping.GetShipmentsByStatusFallback` | shipping-service/src/main/java/com/ecommerce/shipping/service/ShippingServiceImpl.java:114-119 | a single entry with the status and the unavailable message, no orderId and no record |
| `Shipping.UpdateShipmentStatusError` | shipping-service/src/main/java/com/ecommerce/shipping/service/ShippingServiceImpl.java:150-154 | the catch answer of updateShipmentStatus: the id, the requested status and notes, the message, no record |
| `Shipping.UpdateShipmentStatusFallback` | shipping-service/src/main/java/com/ecommerce/shipping/service/ShippingServiceImpl.java:157-163 | the id and requested status with the unavailable message; notes not echoed; no record |
| `Shipping.CancelShipmentError` | shipping-service/src/main/java/com/ecommerce/shipping/service/ShippingServiceImpl.java:190-194 | the catch answer of cancelShipment: the id, status CANCELLED, no notes, the message, no record |
| `Shipping.CancelShipmentFallback` | shipping-service/src/main/java/com/ecommerce/shipping/service/ShippingServiceImpl.java:197-203 | the cancel error shape with the unavailable message |
| `Shipping.MapShipments` | shipping-service/src/main/java/com/ecommerce/shipping/service/ShippingServiceImpl.java:92-94 | the stream map keeps the order and the length of the query result, and every listed shipment appears in it mapped with the message |
| `Shipping.StatusUpdated` | shipping-service/src/main/java/com/ecommerce/shipping/service/ShippingServiceImpl.java:130-142 | status becomes the requested one and updatedAt is refreshed; id, orderId, tracking number, carrier, address and createdAt are unchanged; notes change only when new notes are supplied; shippedAt changes only on SHIPPED and deliveredAt only on DELIVERED; the store invariant is kept |
| `Shipping.Cancelled` | shipping-service/src/main/java/com/ecommerce/shipping/service/ShippingServiceImpl.java:181-182 | only status (CANCELLED) and updatedAt change, and CANCELLED is not a refused status, so cancelling again is permitted |
| `Shipping.ApplyUpdatesMilestones` | shipping-service/src/main/java/com/ecommerce/shipping/service/ShippingServiceImpl.java:137-142 | after any run of updates, shippedAt (deliveredAt) is the stamp of the last update to SHIPPED (DELIVERED), or its value before the run; identity fields never change |
| `Shipping.MilestonesNeverCleared` | shipping-service/src/main/java/com/ecommerce/shipping/service/ShippingServiceImpl.java:138-142 | a set shippedAt or deliveredAt stays set through any later run of updates |
| `Shipping.ShippingService.constructor` | shipping-service/src/main/java/com/ecommerce/shipping/service/ShippingServiceImpl.java:28-32 | an empty store, counter at 1, no events, invariant holds |
| `Shipping.ShippingService.SaveNew` | shipping-service/src/main/java/com/ecommerce/shipping/service/ShippingServiceImpl.java:50 | saving a new shipment gives it the next unused id, adds exactly that key, and sends no event |
| `Shipping.ShippingService.CreateShipment` | shipping-service/src/main/java/com/ecommerce/shipping/service/ShippingServiceImpl.java:34-62 | unless rejected or the save throws, exactly one new key is stored, holding a PENDING shipment with the generated tracking number, both clock readings, no shippedAt/deliveredAt, and orderId, carrier, address and notes from the request; old records unchanged; exactly one "Shipment created" event unless the send throws; rejected or save-failed calls change nothing and return the fallback or catch echo |
| `Shipping.ShippingService.GetShipmentById` | shipping-service/src/main/java/com/ecommerce/shipping/service/ShippingServiceImpl.java:71-78 | a stored id yields its whole record; an unknown id or a rejected call yields the fallback |
| `Shipping.ShippingService.GetShipmentsByOrderId` | shipping-service/src/main/java/com/ecommerce/shipping/service/ShippingServiceImpl.java:87-95 | exactly the stored shipments of that order, each mapped in full, in strictly increasing id order; rejected: the fallback list |
| `Shipping.ShippingService.GetShipmentsByStatus` | shipping-service/src/main/java/com/ecommerce/shipping/service/ShippingServiceImpl.java:104-112 | exactly the stored shipments with that status, each mapped in full, in strictly increasing id order; rejected: the fallback list |
| `Shipping.ShippingService.UpdateShipmentStatus` | shipping-service/src/main/java/com/ecommerce/shipping/service/ShippingServiceImpl.java:121-155 | if the repository read throws, nothing changes and the answer is the error response with "Error updating shipment status: " and the exception message; otherwise on a stored id with no fault the record becomes StatusUpdated of the old one, with one "status updated" event carrying the new status and the updated record in the response; if the save or the send throws there is no event and the answer is the error response with "Error updating shipment status: " and the exception message, and nothing is saved if the save threw (the update is saved if only the send threw); an unknown id returns the error response with that id and "Error updating shipment status: Shipment not found with ID: n", changing neither store nor events |
| `Shipping.ShippingService.CancelShipment` | shipping-service/src/main/java/com/ecommerce/shipping/service/ShippingServiceImpl.java:165-195 | if the repository read throws, nothing changes and the answer is the error response with "Error cancelling shipment: " and the exception message; otherwise SHIPPED, IN_TRANSIT or DELIVERED: nothing changes and the record comes back with "Cannot cancel shipment that has already been STATUS"; any other status with no fault: the record becomes Cancelled, saved, with one "Shipment cancelled" event and the cancelled record in the response; if the save or the send throws there is no event and the answer is the error response with "Error cancelling shipment: " and the exception message, and nothing is saved if the save threw (the cancellation is saved if only the send threw); unknown id: error response, nothing changes |
| `Shipping.CancelTwice` | shipping-service/src/main/java/com/ecommerce/shipping/service/ShippingServiceImpl.java:174-189 | two cancellations of a cancellable shipment both succeed, leaving it CANCELLED with the second timestamp and two events |
| `Payments.MapToPaymentResponse` | payment-service/src/main/java/com/ecommerce/payment/service/PaymentServiceImpl.java:155-166 | the response carries the whole payment (RecordOf recovers it exactly) and the given message |
| `Payments.ProcessPaymentFallback` | payment-service/src/main/java/com/ecommerce/payment/service/PaymentServiceImpl.java:75-83 | status FAILED with no id, no transaction id and no date, echoing orderId, amount and method, with the unavailable message |
| `Payments.GetPaymentByIdFallback` | payment-service/src/main/java/com/ecommerce/payment/service/PaymentServiceImpl.java:94-99 | only the requested id and the unavailable message; no record |
| `Payments.GetPaymentsByOrderIdFallback` | payment-service/src/main/java/com/ecommerce/payment/service/PaymentServiceImpl.java:111-116 | a single entry with the orderId and the unavailable message and no record |
| `Payments.RefundPaymentFallback` | payment-service/src/main/java/com/ecommerce/payment/service/PaymentServiceImpl.java:147-153 | the id, status FAILED, no transaction id and "Refund service is currently unavailable" |
| `Payments.MapPayments` | payment-service/src/main/java/com/ecommerce/payment/service/PaymentServiceImpl.java:106-108 | the stream map keeps the order and the length of the query result, and every listed payment appears in it mapped with the message |
| `Payments.Refunded` | payment-service/src/main/java/com/ecommerce/payment/service/PaymentServiceImpl.java:135 | only the status changes, to REFUNDED; the result cannot be refunded again; the transaction-id invariant is kept |
| `Payments.PaymentService.constructor` | payment-service/src/main/java/com/ecommerce/payment/service/PaymentServiceImpl.java:28-32 | an empty store, counter at 1, no events, invariant holds |
| `Payments.PaymentService.SaveNew` | payment-service/src/main/java/com/ecommerce/payment/service/PaymentServiceImpl.java:55 | saving a new payment gives it the next unused id, adds exactly that key, and sends no event |
| `Payments.PaymentService.SaveFailedPayment` | payment-service/src/main/java/com/ecommerce/payment/service/PaymentServiceImpl.java:61-72 | the catch path stores one FAILED payment without transaction id, from the request and the catch-block clock reading, sends no event and returns it with "Payment processing failed: " and the reason |
| `Payments.PaymentService.ProcessPayment` | payment-service/src/main/java/com/ecommerce/payment/service/PaymentServiceImpl.java:34-73 | success: one new COMPLETED payment with the transaction id and one "Payment processed" event; gateway or save failure: one new FAILED payment without transaction id and no event; send failure: the COMPLETED payment and a FAILED one, no event; rejected: the fallback and nothing changes; every new record is COMPLETED exactly when it has a transaction id; old records unchanged |
| `Payments.PaymentService.GetPaymentById` | payment-service/src/main/java/com/ecommerce/payment/service/PaymentServiceImpl.java:85-92 | a stored id yields its whole record; an unknown id or a rejected call yields the fallback |
| `Payments.PaymentService.GetPaymentsByOrderId` | payment-service/src/main/java/com/ecommerce/payment/service/PaymentServiceImpl.java:101-109 | exactly the stored payments of that order, each mapped in full with "Payment retrieved successfully", in strictly increasing id order; rejected: the fallback list |
| `Payments.PaymentService.RefundPayment` | payment-service/src/main/java/com/ecommerce/payment/service/PaymentServiceImpl.java:118-145 | unknown id or rejected: the refund fallback, nothing changes; not COMPLETED: the record unchanged with "Cannot refund payment that is not completed", no save, no event; COMPLETED: the record becomes Refunded (only status changes), saved, with one "Payment refunded" event, or the fault's partial effect |
| `Payments.RefundTwice` | payment-service/src/main/java/com/ecommerce/payment/service/PaymentServiceImpl.java:126-141 | refunding a COMPLETED payment twice refunds it once; the second call answers "Cannot refund payment that is not completed"; one event in all |
| `Shipping.EventMessageInjective` | shipping-service/src/main/java/com/ecommerce/shipping/service/ShippingServiceImpl.java:147 | two shipping events give the same Kafka message text exactly when they are the same event: the text determines the kind, the id and, for a status update, the status |
| `Payments.EventMessageInjective` | payment-service/src/main/java/com/ecommerce/payment/service/PaymentServiceImpl.java:139 | two payment events give the same Kafka message text exactly when they are the same event: the text determines the kind and the id |
| `Decimal.ParseNatToString` | shipping-service/src/main/java/com/ecommerce/shipping/service/ShippingServiceImpl.java:53 | the digits written for an id read back as that id |
| `Decimal.IntToStringRoundTrip` | payment-service/src/main/java/com/ecommerce/payment/service/PaymentServiceImpl.java:58 | Long.toString of any id, negative ones included, parses back to the id, so the id in an event or message determines it |
| `KeyedStore.IdsWhere` | shipping-service/src/main/java/com/ecommerce/shipping/repository/ShipmentRepository.java:12-13 | a derived query returns exactly the keys in range whose record matches, each once, in ascending order |

## Left out

- Resilience4j policies (`@CircuitBreaker`, `@RateLimiter`, `@Retry`, `@TimeLimiter`): their state and
  configuration live in the framework. A call's admission is an `Admission` parameter, and a rejected
  call yields the named fallback.
- Retry re-invocation: the model's uncaught paths (not-found lookups) change nothing, so re-running them
  changes nothing either. The one uncaught path with effects is left out: a failing save inside
  processPayment's catch block (`PaymentServiceImpl.java:69`), which escapes to the fallback after
  retries.
- The `Exception` argument of the fallback methods: they ignore it.
- `Thread.sleep` delays: only their interruption is modelled, as the `GatewayInterrupted` fault.
- Kafka transport: a send is an event appended to the service's log. A send that throws appends nothing.
  The message text is given by `EventMessage`.
- JPA persistence: a map and an id counter. Derived queries return records in ascending id order. JPA
  does not promise any order.
- `LocalDateTime.now()` and `UUID.randomUUID()`: parameters. A transaction id is any string.
- Null request fields other than the notes, a null status in a status update, and null ids:
  requests are taken as carrying these values.
- `Long` ids and the identity counter are unbounded integers. 64-bit overflow is not modelled.
- `BigDecimal` amounts are integers. They are only copied, and their sign is not checked, as in the
  source.
- `PaymentStatus.java` is not part of this model. The statuses are the three the service uses:
  COMPLETED, FAILED and REFUNDED.
- The HTTP controllers and the gateway's `FallbackController`: routing and static text.
- Concurrency between requests: each operation is modelled as one atomic step.
