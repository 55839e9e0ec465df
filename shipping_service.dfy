/** ShippingServiceImpl: the shipment lifecycle over a keyed store, with the
    events it sends and the fallbacks that answer when a call is rejected or
    throws past its own catch block. */
module Shipping {
  import opened Wrappers
  import opened Environment
  import opened Decimal
  import opened Text
  import opened KeyedStore
  import opened ShippingModel

  /** Where the body of a state-changing operation may throw inside its try
      block: the repository read of the shipment (nothing has happened yet;
      createShipment reads nothing, so there this fault never fires), the
      repository save (nothing persisted) or the Kafka send (the record is
      already persisted, no event goes out). The message is the exception's
      getMessage(). */
  datatype Fault =
    | NoFault
    | FindFails(message: string)
    | SaveFails(message: string)
    | SendFails(message: string)

  const Unavailable := "Shipping service is currently unavailable. Please try again later."

  function NotFoundMessage(shipmentId: int): string {
    "Shipment not found with ID: " + IntToString(shipmentId)
  }

  /** The text of the Kafka message for an event. */
  function EventMessage(e: ShippingEvent): string {
    match e
    case ShipmentCreated(id) => "Shipment created: " + IntToString(id)
    case ShipmentStatusUpdated(id, status) =>
      "Shipment status updated: " + IntToString(id) + ", Status: " + StatusName(status)
    case ShipmentCancelled(id) => "Shipment cancelled: " + IntToString(id)
  }

  lemma StatusNameInjective(a: ShipmentStatus, b: ShipmentStatus)
    requires StatusName(a) == StatusName(b)
    ensures a == b
  {
  }

  /** The status-update message determines both the id and the status: the
      rendered id holds no comma, so the text splits back at ", Status: ". */
  lemma StatusUpdatedMessageInjective(a: int, s1: ShipmentStatus, b: int, s2: ShipmentStatus)
    requires EventMessage(ShipmentStatusUpdated(a, s1)) == EventMessage(ShipmentStatusUpdated(b, s2))
    ensures a == b && s1 == s2
  {
    var p := "Shipment status updated: ";
    IntToStringHasNoComma(a);
    IntToStringHasNoComma(b);
    assert forall k :: 0 <= k < |p + IntToString(a)| ==> (p + IntToString(a))[k] != ',';
    assert forall k :: 0 <= k < |p + IntToString(b)| ==> (p + IntToString(b))[k] != ',';
    SplitAtSeparator(p + IntToString(a), p + IntToString(b), ", Status: ", StatusName(s1), StatusName(s2));
    PrefixedIdInjective(p, a, b);
    StatusNameInjective(s1, s2);
  }

  /** The Kafka payload determines the event: distinct events are sent as
      distinct texts, so a consumer can recover the kind, the id and the status. */
  lemma EventMessageInjective(e1: ShippingEvent, e2: ShippingEvent)
    ensures EventMessage(e1) == EventMessage(e2) <==> e1 == e2
  {
    if e1.ShipmentStatusUpdated? && e2.ShipmentStatusUpdated? {
      if EventMessage(e1) == EventMessage(e2) {
        StatusUpdatedMessageInjective(e1.id, e1.status, e2.id, e2.status);
      }
    } else if e1.ShipmentCreated? && e2.ShipmentCreated? {
      if EventMessage(e1) == EventMessage(e2) {
        PrefixedIdInjective("Shipment created: ", e1.id, e2.id);
      }
    } else if e1.ShipmentCancelled? && e2.ShipmentCancelled? {
      if EventMessage(e1) == EventMessage(e2) {
        PrefixedIdInjective("Shipment cancelled: ", e1.id, e2.id);
      }
    } else {
      // Messages of different kinds differ in their tenth or eleventh character.
      var m1, m2 := EventMessage(e1), EventMessage(e2);
      assert m1[9] != m2[9] || m1[10] != m2[10];
    }
  }

  // ---------------------------------------------------------------------------
  // Tracking numbers

  predicate IsLowerHex(c: char) {
    '0' <= c <= '9' || 'a' <= c <= 'f'
  }

  predicate IsUpperHex(c: char) {
    '0' <= c <= '9' || 'A' <= c <= 'F'
  }

  /** The text of UUID.toString(): 8-4-4-4-12 lower-case hex digits. */
  predicate IsUuidText(s: string) {
    |s| == 36 &&
    forall i :: 0 <= i < |s| ==>
      if i == 8 || i == 13 || i == 18 || i == 23 then s[i] == '-' else IsLowerHex(s[i])
  }

  type UuidText = s: string | IsUuidText(s) witness "00000000-0000-0000-0000-000000000000"

  function UpperChar(c: char): char {
    if 'a' <= c <= 'z' then (c as int - 32) as char else c
  }

  function LowerChar(c: char): char {
    if 'A' <= c <= 'Z' then (c as int + 32) as char else c
  }

  function ToUpperCase(s: string): string {
    seq(|s|, i requires 0 <= i < |s| => UpperChar(s[i]))
  }

  function ToLowerCase(s: string): string {
    seq(|s|, i requires 0 <= i < |s| => LowerChar(s[i]))
  }

  predicate IsTrackingNumber(t: string) {
    |t| == 12 && t[..4] == "TRK-" && forall i :: 4 <= i < 12 ==> IsUpperHex(t[i])
  }

  /** "TRK-" and the first eight characters of a random UUID, upper-cased. */
  function GenerateTrackingNumber(uuid: UuidText): (t: string)
    ensures IsTrackingNumber(t)
    ensures ToLowerCase(t[4..]) == uuid[..8]
  {
    var t := "TRK-" + ToUpperCase(uuid[..8]);
    assert forall i :: 4 <= i < 12 ==> t[i] == UpperChar(uuid[i - 4]);
    assert t[4..] == ToUpperCase(uuid[..8]);
    t
  }

  // ---------------------------------------------------------------------------
  // Responses

  /** A response that describes a stored shipment in full. */
  function MapToShipmentResponse(s: Shipment, message: string): (r: ShipmentResponse)
    ensures RecordOf(r) == Some(s)
    ensures r.message == message
  {
    ShipmentResponse(Some(s.id), Some(s.orderId), Some(s.trackingNumber), Some(s.carrierName),
                     Some(s.status), Some(s.shippingAddress), Some(s.createdAt), Some(s.updatedAt),
                     s.shippedAt, s.deliveredAt, s.notes, message)
  }

  /** The request echoed back without id, tracking number or timestamps: the
      answer of createShipment's catch block and of its fallback. */
  function CreateShipmentEcho(request: ShipmentRequest, message: string): (r: ShipmentResponse)
    ensures RecordOf(r) == None && r.id == None && r.trackingNumber == None
    ensures r.orderId == Some(request.orderId) && r.carrierName == Some(request.carrierName)
    ensures r.shippingAddress == Some(request.shippingAddress) && r.notes == request.notes
    ensures r.status == Some(PENDING) && r.message == message
  {
    ShipmentResponse(None, Some(request.orderId), None, Some(request.carrierName), Some(PENDING),
                     Some(request.shippingAddress), None, None, None, None, request.notes, message)
  }

  function CreateShipmentFallback(request: ShipmentRequest): (r: ShipmentResponse)
    ensures RecordOf(r) == None && r.id == None && r.trackingNumber == None && r.createdAt == None
    ensures r.orderId == Some(request.orderId) && r.carrierName == Some(request.carrierName)
    ensures r.shippingAddress == Some(request.shippingAddress) && r.notes == request.notes
    ensures r.status == Some(PENDING) && r.message == Unavailable
  {
    CreateShipmentEcho(request, Unavailable)
  }

  function GetShipmentByIdFallback(shipmentId: int): (r: ShipmentResponse)
    ensures RecordOf(r) == None && r.id == Some(shipmentId) && r.status == None
    ensures r.trackingNumber == None && r.message == Unavailable
  {
    MessageOnly(Unavailable).(id := Some(shipmentId))
  }

  function GetShipmentsByOrderIdFallback(orderId: int): (rs: seq<ShipmentResponse>)
    ensures |rs| == 1 && RecordOf(rs[0]) == None
    ensures rs[0].orderId == Some(orderId) && rs[0].id == None && rs[0].trackingNumber == None
    ensures rs[0].status == None && rs[0].message == Unavailable
  {
    [MessageOnly(Unavailable).(orderId := Some(orderId))]
  }

  function GetShipmentsByStatusFallback(status: ShipmentStatus): (rs: seq<ShipmentResponse>)
    ensures |rs| == 1 && RecordOf(rs[0]) == None
    ensures rs[0].status == Some(status) && rs[0].id == None && rs[0].trackingNumber == None
    ensures rs[0].orderId == None && rs[0].message == Unavailable
  {
    [MessageOnly(Unavailable).(status := Some(status))]
  }

  /** The answer of updateShipmentStatus's catch block: the id and the request
      echoed, with an error message. */
  function UpdateShipmentStatusError(shipmentId: int, request: ShipmentStatusUpdateRequest, message: string)
    : (r: ShipmentResponse)
    ensures RecordOf(r) == None && r.id == Some(shipmentId)
    ensures r.status == Some(request.status) && r.notes == request.notes && r.message == message
  {
    ShipmentResponse(Some(shipmentId), None, None, None, Some(request.status),
                     None, None, None, None, None, request.notes, message)
  }

  function UpdateShipmentStatusFallback(shipmentId: int, request: ShipmentStatusUpdateRequest)
    : (r: ShipmentResponse)
    ensures RecordOf(r) == None && r.id == Some(shipmentId) && r.status == Some(request.status)
    ensures r.notes == None && r.message == Unavailable
  {
    MessageOnly(Unavailable).(id := Some(shipmentId), status := Some(request.status))
  }

  /** The answer of cancelShipment's catch block, and, with the unavailable
      message, of its fallback. */
  function CancelShipmentError(shipmentId: int, message: string): (r: ShipmentResponse)
    ensures RecordOf(r) == None && r.id == Some(shipmentId) && r.status == Some(CANCELLED)
    ensures r.notes == None && r.message == message
  {
    MessageOnly(message).(id := Some(shipmentId), status := Some(CANCELLED))
  }

  function CancelShipmentFallback(shipmentId: int): (r: ShipmentResponse)
    ensures RecordOf(r) == None && r.id == Some(shipmentId) && r.status == Some(CANCELLED)
    ensures r.orderId == None && r.notes == None && r.message == Unavailable
  {
    CancelShipmentError(shipmentId, Unavailable)
  }

  /** The stream map of a lookup: each listed shipment mapped with message. */
  function MapShipments(st: map<int, Shipment>, ids: seq<int>, message: string): (rs: seq<ShipmentResponse>)
    requires forall k :: 0 <= k < |ids| ==> ids[k] in st
    ensures |rs| == |ids|
    ensures forall k :: 0 <= k < |rs| ==> rs[k] == MapToShipmentResponse(st[ids[k]], message)
    ensures forall id :: id in ids ==> MapToShipmentResponse(st[id], message) in rs
    decreases |ids|
  {
    if ids == [] then []
    else [MapToShipmentResponse(st[ids[0]], message)] + MapShipments(st, ids[1..], message)
  }

  // ---------------------------------------------------------------------------
  // Transitions of one shipment

  /** The fields fixed when a shipment is created. */
  predicate SameIdentity(a: Shipment, b: Shipment) {
    a.id == b.id && a.orderId == b.orderId && a.trackingNumber == b.trackingNumber &&
    a.carrierName == b.carrierName && a.shippingAddress == b.shippingAddress &&
    a.createdAt == b.createdAt
  }

  /** What every stored shipment satisfies: a generated tracking number, and a
      shipped (delivered) timestamp whenever its status is SHIPPED (DELIVERED). */
  predicate WellFormed(s: Shipment) {
    IsTrackingNumber(s.trackingNumber) &&
    (s.status == SHIPPED ==> s.shippedAt.Some?) &&
    (s.status == DELIVERED ==> s.deliveredAt.Some?)
  }

  /** The statuses from which cancellation is refused. */
  predicate IsCancellationRefused(status: ShipmentStatus) {
    status == SHIPPED || status == IN_TRANSIT || status == DELIVERED
  }

  /** The shipment after a status update: updatedAt is the first clock reading,
      a SHIPPED or DELIVERED timestamp the second. */
  function StatusUpdated(s: Shipment, request: ShipmentStatusUpdateRequest,
                         updatedAt: Timestamp, stampedAt: Timestamp): (r: Shipment)
    ensures SameIdentity(r, s)
    ensures r.status == request.status && r.updatedAt == updatedAt
    ensures request.notes.Some? ==> r.notes == request.notes
    ensures request.notes.None? ==> r.notes == s.notes
    ensures r.shippedAt != s.shippedAt ==> request.status == SHIPPED && r.shippedAt == Some(stampedAt)
    ensures r.deliveredAt != s.deliveredAt ==> request.status == DELIVERED && r.deliveredAt == Some(stampedAt)
    ensures request.status == SHIPPED ==> r.shippedAt == Some(stampedAt)
    ensures request.status == DELIVERED ==> r.deliveredAt == Some(stampedAt)
    ensures WellFormed(s) ==> WellFormed(r)
  {
    s.(status := request.status,
       updatedAt := updatedAt,
       notes := if request.notes.Some? then request.notes else s.notes,
       shippedAt := if request.status == SHIPPED then Some(stampedAt) else s.shippedAt,
       deliveredAt := if request.status == DELIVERED then Some(stampedAt) else s.deliveredAt)
  }

  /** The shipment after a permitted cancellation. It may be cancelled again. */
  function Cancelled(s: Shipment, now: Timestamp): (r: Shipment)
    ensures SameIdentity(r, s)
    ensures r.status == CANCELLED && r.updatedAt == now && !IsCancellationRefused(r.status)
    ensures r.shippedAt == s.shippedAt && r.deliveredAt == s.deliveredAt && r.notes == s.notes
    ensures WellFormed(s) ==> WellFormed(r)
  {
    s.(status := CANCELLED, updatedAt := now)
  }

  // ---------------------------------------------------------------------------
  // Runs of status updates

  /** One status update with the two clock readings it takes. */
  datatype TimedUpdate = TimedUpdate(request: ShipmentStatusUpdateRequest, updatedAt: Timestamp, stampedAt: Timestamp)

  /** The shipment after a run of status updates, applied first to last. */
  function ApplyUpdates(s: Shipment, run: seq<TimedUpdate>): Shipment
    decreases |run|
  {
    if run == [] then s
    else ApplyUpdates(StatusUpdated(s, run[0].request, run[0].updatedAt, run[0].stampedAt), run[1..])
  }

  /** The stamp of the last update in the run that requested target, or
      initial when none did: read from the end of the run. */
  function LastStamp(run: seq<TimedUpdate>, target: ShipmentStatus, initial: Option<Timestamp>): Option<Timestamp>
    decreases |run|
  {
    if run == [] then initial
    else if run[|run| - 1].request.status == target then Some(run[|run| - 1].stampedAt)
    else LastStamp(run[..|run| - 1], target, initial)
  }

  lemma {:induction false} LastStampSplit(run: seq<TimedUpdate>, target: ShipmentStatus, initial: Option<Timestamp>)
    requires run != []
    ensures LastStamp(run, target, initial) == LastStamp(run[1..], target, LastStamp(run[..1], target, initial))
    decreases |run|
  {
    if |run| > 1 {
      var last := run[|run| - 1];
      assert run[1..][..|run[1..]| - 1] == run[..|run| - 1][1..];
      assert run[..|run| - 1][..1] == run[..1];
      if last.request.status != target {
        LastStampSplit(run[..|run| - 1], target, initial);
      }
    }
  }

  /** After any run of updates, shippedAt (deliveredAt) is the stamp of the last
      update to SHIPPED (DELIVERED), or what it was before the run when there
      was none; the identity fields never change. So a later unrelated update
      never clears either timestamp. */
  lemma {:induction false} ApplyUpdatesMilestones(s: Shipment, run: seq<TimedUpdate>)
    ensures ApplyUpdates(s, run).shippedAt == LastStamp(run, SHIPPED, s.shippedAt)
    ensures ApplyUpdates(s, run).deliveredAt == LastStamp(run, DELIVERED, s.deliveredAt)
    ensures SameIdentity(ApplyUpdates(s, run), s)
    decreases |run|
  {
    if run != [] {
      var u := run[0];
      var s1 := StatusUpdated(s, u.request, u.updatedAt, u.stampedAt);
      ApplyUpdatesMilestones(s1, run[1..]);
      LastStampSplit(run, SHIPPED, s.shippedAt);
      LastStampSplit(run, DELIVERED, s.deliveredAt);
      assert run[..1][..0] == [];
    }
  }

  /** A shipment stays shipped-stamped (delivered-stamped) through any run. */
  lemma MilestonesNeverCleared(s: Shipment, run: seq<TimedUpdate>)
    ensures s.shippedAt.Some? ==> ApplyUpdates(s, run).shippedAt.Some?
    ensures s.deliveredAt.Some? ==> ApplyUpdates(s, run).deliveredAt.Some?
  {
    ApplyUpdatesMilestones(s, run);
    LastStampKeepsSome(run, SHIPPED, s.shippedAt);
    LastStampKeepsSome(run, DELIVERED, s.deliveredAt);
  }

  lemma {:induction false} LastStampKeepsSome(run: seq<TimedUpdate>, target: ShipmentStatus, initial: Option<Timestamp>)
    ensures initial.Some? ==> LastStamp(run, target, initial).Some?
    decreases |run|
  {
    if run != [] {
      LastStampKeepsSome(run[..|run| - 1], target, initial);
    }
  }

  // ---------------------------------------------------------------------------
  // The service

  class ShippingService {
    /** The shipment repository, keyed by id. */
    var store: map<int, Shipment>
    /** The next identity value the repository will assign. */
    var nextId: int
    /** Everything sent to the "shipping-events" topic, oldest first. */
    var events: seq<ShippingEvent>

    ghost predicate Valid()
      reads this
    {
      1 <= nextId &&
      forall id :: id in store ==> 1 <= id < nextId && store[id].id == id && WellFormed(store[id])
    }

    constructor ()
      ensures Valid() && store == map[] && nextId == 1 && events == []
    {
      store, nextId, events := map[], 1, [];
    }

    /** The repository's save of a new entity: it is given the next id. */
    method SaveNew(s: Shipment) returns (saved: Shipment)
      requires Valid() && WellFormed(s)
      modifies this
      ensures Valid() && events == old(events)
      ensures saved == s.(id := old(nextId)) && old(nextId) !in old(store)
      ensures store == old(store)[saved.id := saved] && nextId == old(nextId) + 1
    {
      saved := s.(id := nextId);
      store := store[nextId := saved];
      nextId := nextId + 1;
    }

    method CreateShipment(request: ShipmentRequest, uuid: UuidText, createdAt: Timestamp, updatedAt: Timestamp,
                          admission: Admission, fault: Fault)
      returns (r: ShipmentResponse)
      requires Valid()
      modifies this
      ensures Valid()
      ensures admission == Rejected ==> unchanged(this) && r == CreateShipmentFallback(request)
      ensures admission == Admitted && fault.SaveFails? ==>
        unchanged(this) && r == CreateShipmentEcho(request, "Error creating shipment: " + fault.message)
      ensures admission == Admitted && !fault.SaveFails? ==>
        var id := old(nextId);
        && id !in old(store) && nextId == id + 1
        && store.Keys == old(store).Keys + {id}
        && (forall k :: k in old(store) ==> store[k] == old(store)[k])
        && store[id].status == PENDING
        && store[id].trackingNumber == GenerateTrackingNumber(uuid)
        && store[id].orderId == request.orderId && store[id].carrierName == request.carrierName
        && store[id].shippingAddress == request.shippingAddress && store[id].notes == request.notes
        && store[id].createdAt == createdAt && store[id].updatedAt == updatedAt
        && store[id].shippedAt == None && store[id].deliveredAt == None
      ensures admission == Admitted && (fault.NoFault? || fault.FindFails?) ==>
        events == old(events) + [ShipmentCreated(old(nextId))] &&
        r == MapToShipmentResponse(store[old(nextId)], "Shipment created successfully")
      ensures admission == Admitted && fault.SendFails? ==>
        events == old(events) && r == CreateShipmentEcho(request, "Error creating shipment: " + fault.message)
    {
      if admission == Rejected {
        return CreateShipmentFallback(request);
      }
      var shipment := Shipment(0, request.orderId, GenerateTrackingNumber(uuid), request.carrierName, PENDING,
                               request.shippingAddress, createdAt, updatedAt, None, None, request.notes);
      if fault.SaveFails? {
        return CreateShipmentEcho(request, "Error creating shipment: " + fault.message);
      }
      shipment := SaveNew(shipment);
      if fault.SendFails? {
        return CreateShipmentEcho(request, "Error creating shipment: " + fault.message);
      }
      events := events + [ShipmentCreated(shipment.id)];
      r := MapToShipmentResponse(shipment, "Shipment created successfully");
    }

    /** A not-found id throws outside any catch block, so the fallback answers. */
    function GetShipmentById(shipmentId: int, admission: Admission): (r: ShipmentResponse)
      reads this
      ensures admission == Admitted && shipmentId in store ==>
        RecordOf(r) == Some(store[shipmentId]) && r.message == "Shipment retrieved successfully"
      ensures admission == Rejected || shipmentId !in store ==> r == GetShipmentByIdFallback(shipmentId)
    {
      if admission == Admitted && shipmentId in store
      then MapToShipmentResponse(store[shipmentId], "Shipment retrieved successfully")
      else GetShipmentByIdFallback(shipmentId)
    }

    /** The stored shipments that satisfy keep, in ascending id order, each
        mapped with message. */
    function Listing(keep: Shipment -> bool, message: string): (rs: seq<ShipmentResponse>)
      reads this
      requires Valid()
      ensures forall k :: 0 <= k < |rs| ==>
        rs[k].id.Some? && rs[k].id.value in store && keep(store[rs[k].id.value]) &&
        rs[k] == MapToShipmentResponse(store[rs[k].id.value], message)
      ensures forall id :: id in store && keep(store[id]) ==> MapToShipmentResponse(store[id], message) in rs
      ensures forall j, k :: 0 <= j < k < |rs| ==> rs[j].id.value < rs[k].id.value
    {
      var st := store;
      MapShipments(st, IdsWhere(st, keep, 1, nextId), message)
    }

    function GetShipmentsByOrderId(orderId: int, admission: Admission): (rs: seq<ShipmentResponse>)
      reads this
      requires Valid()
      ensures admission == Rejected ==> rs == GetShipmentsByOrderIdFallback(orderId)
      ensures admission == Admitted ==> forall k :: 0 <= k < |rs| ==>
        rs[k].id.Some? && rs[k].id.value in store && store[rs[k].id.value].orderId == orderId &&
        rs[k] == MapToShipmentResponse(store[rs[k].id.value], "Shipment retrieved successfully")
      ensures admission == Admitted ==> forall id :: id in store && store[id].orderId == orderId ==>
        MapToShipmentResponse(store[id], "Shipment retrieved successfully") in rs
      ensures admission == Admitted ==> forall j, k :: 0 <= j < k < |rs| ==> rs[j].id.value < rs[k].id.value
    {
      if admission == Rejected then GetShipmentsByOrderIdFallback(orderId)
      else Listing((s: Shipment) => s.orderId == orderId, "Shipment retrieved successfully")
    }

    function GetShipmentsByStatus(status: ShipmentStatus, admission: Admission): (rs: seq<ShipmentResponse>)
      reads this
      requires Valid()
      ensures admission == Rejected ==> rs == GetShipmentsByStatusFallback(status)
      ensures admission == Admitted ==> forall k :: 0 <= k < |rs| ==>
        rs[k].id.Some? && rs[k].id.value in store && store[rs[k].id.value].status == status &&
        rs[k] == MapToShipmentResponse(store[rs[k].id.value], "Shipments retrieved successfully")
      ensures admission == Admitted ==> forall id :: id in store && store[id].status == status ==>
        MapToShipmentResponse(store[id], "Shipments retrieved successfully") in rs
      ensures admission == Admitted ==> forall j, k :: 0 <= j < k < |rs| ==> rs[j].id.value < rs[k].id.value
    {
      if admission == Rejected then GetShipmentsByStatusFallback(status)
      else Listing((s: Shipment) => s.status == status, "Shipments retrieved successfully")
    }

    method UpdateShipmentStatus(shipmentId: int, request: ShipmentStatusUpdateRequest,
                                updatedAt: Timestamp, stampedAt: Timestamp, admission: Admission, fault: Fault)
      returns (r: ShipmentResponse)
      requires Valid()
      modifies this
      ensures Valid() && nextId == old(nextId)
      ensures admission == Rejected ==> unchanged(this) && r == UpdateShipmentStatusFallback(shipmentId, request)
      ensures admission == Admitted && fault.FindFails? ==>
        unchanged(this) &&
        r == UpdateShipmentStatusError(shipmentId, request, "Error updating shipment status: " + fault.message)
      ensures admission == Admitted && !fault.FindFails? && shipmentId !in old(store) ==>
        unchanged(this) &&
        r == UpdateShipmentStatusError(shipmentId, request,
                                       "Error updating shipment status: " + NotFoundMessage(shipmentId))
      ensures admission == Admitted && !fault.FindFails? && shipmentId in old(store) ==>
        var updated := StatusUpdated(old(store)[shipmentId], request, updatedAt, stampedAt);
        && store == (if fault.SaveFails? then old(store) else old(store)[shipmentId := updated])
        && events == (if fault.NoFault? then old(events) + [ShipmentStatusUpdated(shipmentId, request.status)]
                      else old(events))
        && r == (if fault.NoFault? then MapToShipmentResponse(updated, "Shipment status updated successfully")
                 else UpdateShipmentStatusError(shipmentId, request, "Error updating shipment status: " + fault.message))
    {
      if admission == Rejected {
        return UpdateShipmentStatusFallback(shipmentId, request);
      }
      if fault.FindFails? {
        return UpdateShipmentStatusError(shipmentId, request, "Error updating shipment status: " + fault.message);
      }
      if shipmentId !in store {
        return UpdateShipmentStatusError(shipmentId, request,
                                         "Error updating shipment status: " + NotFoundMessage(shipmentId));
      }
      var shipment := store[shipmentId];
      shipment := shipment.(status := request.status);
      shipment := shipment.(updatedAt := updatedAt);
      if request.notes.Some? {
        shipment := shipment.(notes := request.notes);
      }
      if request.status == SHIPPED {
        shipment := shipment.(shippedAt := Some(stampedAt));
      } else if request.status == DELIVERED {
        shipment := shipment.(deliveredAt := Some(stampedAt));
      }
      if fault.SaveFails? {
        return UpdateShipmentStatusError(shipmentId, request, "Error updating shipment status: " + fault.message);
      }
      store := store[shipmentId := shipment];
      if fault.SendFails? {
        return UpdateShipmentStatusError(shipmentId, request, "Error updating shipment status: " + fault.message);
      }
      events := events + [ShipmentStatusUpdated(shipment.id, shipment.status)];
      r := MapToShipmentResponse(shipment, "Shipment status updated successfully");
    }

    method CancelShipment(shipmentId: int, now: Timestamp, admission: Admission, fault: Fault)
      returns (r: ShipmentResponse)
      requires Valid()
      modifies this
      ensures Valid() && nextId == old(nextId)
      ensures admission == Rejected ==> unchanged(this) && r == CancelShipmentFallback(shipmentId)
      ensures admission == Admitted && fault.FindFails? ==>
        unchanged(this) && r == CancelShipmentError(shipmentId, "Error cancelling shipment: " + fault.message)
      ensures admission == Admitted && !fault.FindFails? && shipmentId !in old(store) ==>
        unchanged(this) &&
        r == CancelShipmentError(shipmentId, "Error cancelling shipment: " + NotFoundMessage(shipmentId))
      ensures admission == Admitted && !fault.FindFails? && shipmentId in old(store) && IsCancellationRefused(old(store)[shipmentId].status) ==>
        unchanged(this) &&
        r == MapToShipmentResponse(old(store)[shipmentId],
               "Cannot cancel shipment that has already been " + StatusName(old(store)[shipmentId].status))
      ensures admission == Admitted && !fault.FindFails? && shipmentId in old(store) && !IsCancellationRefused(old(store)[shipmentId].status) ==>
        var cancelled := Cancelled(old(store)[shipmentId], now);
        && store == (if fault.SaveFails? then old(store) else old(store)[shipmentId := cancelled])
        && events == (if fault.NoFault? then old(events) + [ShipmentCancelled(shipmentId)] else old(events))
        && r == (if fault.NoFault? then MapToShipmentResponse(cancelled, "Shipment cancelled successfully")
                 else CancelShipmentError(shipmentId, "Error cancelling shipment: " + fault.message))
    {
      if admission == Rejected {
        return CancelShipmentFallback(shipmentId);
      }
      if fault.FindFails? {
        return CancelShipmentError(shipmentId, "Error cancelling shipment: " + fault.message);
      }
      if shipmentId !in store {
        return CancelShipmentError(shipmentId, "Error cancelling shipment: " + NotFoundMessage(shipmentId));
      }
      var shipment := store[shipmentId];
      if IsCancellationRefused(shipment.status) {
        return MapToShipmentResponse(shipment, "Cannot cancel shipment that has already been " + StatusName(shipment.status));
      }
      shipment := shipment.(status := CANCELLED);
      shipment := shipment.(updatedAt := now);
      if fault.SaveFails? {
        return CancelShipmentError(shipmentId, "Error cancelling shipment: " + fault.message);
      }
      store := store[shipmentId := shipment];
      if fault.SendFails? {
        return CancelShipmentError(shipmentId, "Error cancelling shipment: " + fault.message);
      }
      events := events + [ShipmentCancelled(shipment.id)];
      r := MapToShipmentResponse(shipment, "Shipment cancelled successfully");
    }
  }

  /** Cancelling the same shipment twice: CANCELLED is not a refused status, so
      both calls succeed and each sends an event; the second only refreshes
      updatedAt. */
  method CancelTwice(service: ShippingService, shipmentId: int, now1: Timestamp, now2: Timestamp)
    returns (first: ShipmentResponse, second: ShipmentResponse)
    requires service.Valid() && shipmentId in service.store
    requires !IsCancellationRefused(service.store[shipmentId].status)
    modifies service
    ensures service.Valid()
    ensures first.status == Some(CANCELLED) && first.message == "Shipment cancelled successfully"
    ensures second.status == Some(CANCELLED) && second.message == "Shipment cancelled successfully"
    ensures service.store == old(service.store)[shipmentId := Cancelled(old(service.store)[shipmentId], now2)]
    ensures service.events == old(service.events) + [ShipmentCancelled(shipmentId), ShipmentCancelled(shipmentId)]
  {
    first := service.CancelShipment(shipmentId, now1, Admitted, NoFault);
    second := service.CancelShipment(shipmentId, now2, Admitted, NoFault);
  }
}
