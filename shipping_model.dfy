/** The records of the shipping service: the persisted Shipment entity, the
    two request bodies and the response, with Java's nullable fields as Option. */
module ShippingModel {
  import opened Wrappers
  import opened Environment

  datatype ShipmentStatus =
    | PENDING
    | PROCESSING
    | SHIPPED
    | IN_TRANSIT
    | DELIVERED
    | RETURNED
    | CANCELLED

  /** Enum.toString: the constant's own name. */
  function StatusName(status: ShipmentStatus): string {
    match status
    case PENDING => "PENDING"
    case PROCESSING => "PROCESSING"
    case SHIPPED => "SHIPPED"
    case IN_TRANSIT => "IN_TRANSIT"
    case DELIVERED => "DELIVERED"
    case RETURNED => "RETURNED"
    case CANCELLED => "CANCELLED"
  }

  /** A persisted shipment; id is the key the store assigned when it was first saved. */
  datatype Shipment = Shipment(
    id: int,
    orderId: int,
    trackingNumber: string,
    carrierName: string,
    status: ShipmentStatus,
    shippingAddress: string,
    createdAt: Timestamp,
    updatedAt: Timestamp,
    shippedAt: Option<Timestamp>,
    deliveredAt: Option<Timestamp>,
    notes: Option<string>)

  datatype ShipmentRequest = ShipmentRequest(
    orderId: int,
    carrierName: string,
    shippingAddress: string,
    notes: Option<string>)

  datatype ShipmentStatusUpdateRequest = ShipmentStatusUpdateRequest(
    status: ShipmentStatus,
    notes: Option<string>)

  datatype ShipmentResponse = ShipmentResponse(
    id: Option<int>,
    orderId: Option<int>,
    trackingNumber: Option<string>,
    carrierName: Option<string>,
    status: Option<ShipmentStatus>,
    shippingAddress: Option<string>,
    createdAt: Option<Timestamp>,
    updatedAt: Option<Timestamp>,
    shippedAt: Option<Timestamp>,
    deliveredAt: Option<Timestamp>,
    notes: Option<string>,
    message: string)

  /** The response with every field null except message: what `new
      ShipmentResponse()` followed by setMessage gives. */
  function MessageOnly(message: string): ShipmentResponse {
    ShipmentResponse(None, None, None, None, None, None, None, None, None, None, None, message)
  }

  /** The shipment a response describes, when it carries every field a
      persisted shipment has; the inverse of mapping a shipment to a response. */
  function RecordOf(r: ShipmentResponse): Option<Shipment> {
    if r.id.Some? && r.orderId.Some? && r.trackingNumber.Some? && r.carrierName.Some?
       && r.status.Some? && r.shippingAddress.Some? && r.createdAt.Some? && r.updatedAt.Some?
    then Some(Shipment(r.id.value, r.orderId.value, r.trackingNumber.value, r.carrierName.value,
                       r.status.value, r.shippingAddress.value, r.createdAt.value, r.updatedAt.value,
                       r.shippedAt, r.deliveredAt, r.notes))
    else None
  }

  /** Events sent to the "shipping-events" topic. */
  datatype ShippingEvent =
    | ShipmentCreated(id: int)
    | ShipmentStatusUpdated(id: int, status: ShipmentStatus)
    | ShipmentCancelled(id: int)
}
