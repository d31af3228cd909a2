/** The shipment-tracking response (src/pydelhivery/models/Tracking.py): an open record of
    shipment wrappers and the read-only accessors the client derives from it. Every field of the
    response is optional, so every accessor is total: on missing data it yields an empty list,
    None or false. */
module Tracking {
  import opened Wrappers
  import opened Schema

  datatype ScanDetail = ScanDetail(
    scanDateTime: Option<string>,
    scanType: Option<string>,
    scan: Option<string>,
    statusDateTime: Option<string>,
    scannedLocation: Option<string>,
    statusCode: Option<string>,
    instructions: Option<string>)

  datatype Scan = Scan(scanDetail: Option<ScanDetail>)

  datatype ShipmentStatus = ShipmentStatus(
    status: Option<string>,
    statusLocation: Option<string>,
    statusDateTime: Option<string>,
    recievedBy: Option<string>,
    statusCode: Option<string>,
    statusType: Option<string>,
    instructions: Option<string>)

  datatype Consignee = Consignee(
    city: Option<string>,
    name: Option<string>,
    address1: seq<Json>,
    address2: seq<Json>,
    address3: Option<string>,
    pinCode: Option<int>,
    state: Option<string>,
    telephone1: Option<string>,
    telephone2: Option<string>,
    country: Option<string>)

  datatype ShipmentTracker = ShipmentTracker(
    awb: Option<string>,
    referenceNo: Option<string>,
    orderType: Option<string>,
    pickUpDate: Option<string>,
    pickedupDate: Option<string>,
    deliveryDate: Option<string>,
    returnedDate: Option<string>,
    firstAttemptDate: Option<string>,
    expectedDeliveryDate: Option<string>,
    promisedDeliveryDate: Option<string>,
    returnPromisedDeliveryDate: Option<string>,
    rtoStartedDate: Option<string>,
    origin: Option<string>,
    destination: Option<string>,
    pickupLocation: Option<string>,
    originRecieveDate: Option<string>,
    destRecieveDate: Option<string>,
    outDestinationDate: Option<string>,
    senderName: Option<string>,
    quantity: Option<string>,
    dispatchCount: Option<int>,
    codAmount: Option<real>,
    invoiceAmount: Option<real>,
    chargedWeight: Option<real>,
    reverseInTransit: Option<bool>,
    extras: Option<string>,
    status: Option<ShipmentStatus>,
    scans: seq<Scan>,
    consignee: Option<Consignee>,
    ewaybill: seq<Json>)

  /** A tracker with every field at its default (None or an empty list). */
  const BlankTracker := ShipmentTracker(
    None, None, None, None, None, None, None, None, None, None, None, None, None, None, None,
    None, None, None, None, None, None, None, None, None, None, None, None, [], None, [])

  datatype ShipmentWrapper = ShipmentWrapper(shipment: Option<ShipmentTracker>)

  datatype TrackingResponse = TrackingResponse(shipmentData: seq<ShipmentWrapper>)

  /** The shipments actually present in `ws`, in order; wrappers without one are skipped. */
  function ShipmentsOf(ws: seq<ShipmentWrapper>): (s: seq<ShipmentTracker>)
    ensures |s| <= |ws|
  {
    if ws == [] then []
    else match ws[0].shipment
      case Some(t) => [t] + ShipmentsOf(ws[1..])
      case None => ShipmentsOf(ws[1..])
  }

  function Shipments(r: TrackingResponse): (s: seq<ShipmentTracker>)
    ensures |s| <= |r.shipmentData|
  {
    ShipmentsOf(r.shipmentData)
  }

  /** A tracker is listed exactly when some wrapper holds it. */
  lemma {:induction false} ShipmentsMembership(ws: seq<ShipmentWrapper>, t: ShipmentTracker)
    ensures t in ShipmentsOf(ws) <==> exists i :: 0 <= i < |ws| && ws[i].shipment == Some(t)
  {
    if ws != [] {
      ShipmentsMembership(ws[1..], t);
      if exists i :: 0 <= i < |ws| && ws[i].shipment == Some(t) {
        var i :| 0 <= i < |ws| && ws[i].shipment == Some(t);
        if i > 0 { assert ws[1..][i - 1] == ws[i]; }
      }
      if exists i :: 0 <= i < |ws[1..]| && ws[1..][i].shipment == Some(t) {
        var i :| 0 <= i < |ws[1..]| && ws[1..][i].shipment == Some(t);
        assert ws[i + 1] == ws[1..][i];
      }
    }
  }

  /** The listing keeps wrapper order: the shipments of two batches of wrappers are those of the
      first batch followed by those of the second. */
  lemma {:induction false} ShipmentsAppend(a: seq<ShipmentWrapper>, b: seq<ShipmentWrapper>)
    ensures ShipmentsOf(a + b) == ShipmentsOf(a) + ShipmentsOf(b)
  {
    if a == [] {
      assert a + b == b;
    } else {
      assert (a + b)[1..] == a[1..] + b;
      ShipmentsAppend(a[1..], b);
    }
  }

  /** The listing is the `Shipment` of every wrapper exactly when no wrapper lacks one. */
  lemma {:induction false} ShipmentsComplete(ws: seq<ShipmentWrapper>)
    ensures |ShipmentsOf(ws)| == |ws| <==> forall i :: 0 <= i < |ws| ==> ws[i].shipment.Some?
  {
    if ws != [] {
      ShipmentsComplete(ws[1..]);
      assert forall i :: 1 <= i < |ws| ==> ws[i] == ws[1..][i - 1];
    }
  }

  function FirstShipment(r: TrackingResponse): (f: Option<ShipmentTracker>)
    ensures f.None? <==> Shipments(r) == []
    ensures f.Some? ==> f.value == Shipments(r)[0]
  {
    var shipments := Shipments(r);
    if shipments != [] then Some(shipments[0]) else None
  }

  lemma {:induction false} EarliestShipment(ws: seq<ShipmentWrapper>)
    ensures ShipmentsOf(ws) == [] <==> forall i :: 0 <= i < |ws| ==> ws[i].shipment.None?
    ensures ShipmentsOf(ws) != [] ==>
            exists i :: 0 <= i < |ws| && ws[i].shipment == Some(ShipmentsOf(ws)[0])
                        && forall j :: 0 <= j < i ==> ws[j].shipment.None?
  {
    if ws != [] {
      EarliestShipment(ws[1..]);
      assert forall i :: 1 <= i < |ws| ==> ws[i] == ws[1..][i - 1];
      if ws[0].shipment.None? && ShipmentsOf(ws) != [] {
        var i :| 0 <= i < |ws[1..]| && ws[1..][i].shipment == Some(ShipmentsOf(ws[1..])[0])
                 && forall j :: 0 <= j < i ==> ws[1..][j].shipment.None?;
        assert ws[i + 1].shipment == Some(ShipmentsOf(ws)[0]);
      }
    }
  }

  /** The first shipment is the `Shipment` of the earliest wrapper that has one: wrappers without
      one in front of it are skipped, and there is none exactly when no wrapper has one. */
  lemma FirstShipmentIsEarliest(r: TrackingResponse)
    ensures FirstShipment(r).None? <==> forall i :: 0 <= i < |r.shipmentData| ==> r.shipmentData[i].shipment.None?
    ensures FirstShipment(r).Some? ==>
            exists i :: 0 <= i < |r.shipmentData| && r.shipmentData[i].shipment == FirstShipment(r)
                        && forall j :: 0 <= j < i ==> r.shipmentData[j].shipment.None?
  {
    EarliestShipment(r.shipmentData);
  }

  /** `Status.Status` of the first shipment; None without a first shipment or without a status. */
  function LatestStatus(r: TrackingResponse): (s: Option<string>)
    ensures FirstShipment(r).None? || FirstShipment(r).value.status.None? ==> s.None?
    ensures FirstShipment(r).Some? && FirstShipment(r).value.status.Some? ==>
            s == FirstShipment(r).value.status.value.status
  {
    match FirstShipment(r)
    case Some(shipment) =>
      if shipment.status.Some? then shipment.status.value.status else None
    case None => None
  }

  /** `Status.StatusLocation` of the first shipment, under the same conditions. */
  function LatestStatusLocation(r: TrackingResponse): (s: Option<string>)
    ensures FirstShipment(r).None? || FirstShipment(r).value.status.None? ==> s.None?
    ensures FirstShipment(r).Some? && FirstShipment(r).value.status.Some? ==>
            s == FirstShipment(r).value.status.value.statusLocation
  {
    match FirstShipment(r)
    case Some(shipment) =>
      if shipment.status.Some? then shipment.status.value.statusLocation else None
    case None => None
  }

  /** The `ScanDetail` of the last scan of the first shipment; None when there is no first
      shipment or it has no scans. */
  function LatestScan(r: TrackingResponse): (d: Option<ScanDetail>)
    ensures FirstShipment(r).None? || FirstShipment(r).value.scans == [] ==> d.None?
    ensures FirstShipment(r).Some? && FirstShipment(r).value.scans != [] ==>
            var scans := FirstShipment(r).value.scans; d == scans[|scans| - 1].scanDetail
  {
    match FirstShipment(r)
    case Some(shipment) =>
      if shipment.scans != [] then shipment.scans[|shipment.scans| - 1].scanDetail else None
    case None => None
  }

  predicate IsDelivered(r: TrackingResponse): (b: bool)
    ensures b <==> && FirstShipment(r).Some? && FirstShipment(r).value.status.Some?
                   && FirstShipment(r).value.status.value.status == Some("Delivered")
  {
    LatestStatus(r) == Some("Delivered")
  }

  /** A first shipment exists and its RTO start date is a non-empty string. */
  predicate IsRto(r: TrackingResponse): (b: bool)
    ensures b <==> && FirstShipment(r).Some? && FirstShipment(r).value.rtoStartedDate.Some?
                   && FirstShipment(r).value.rtoStartedDate.value != ""
  {
    match FirstShipment(r)
    case Some(shipment) => shipment.rtoStartedDate.Some? && shipment.rtoStartedDate.value != ""
    case None => false
  }

  /** "Delivered" is read from the first shipment's status and nowhere else: it holds exactly
      when the earliest wrapper that has a shipment carries a status whose text is "Delivered". */
  lemma DeliveredReadsEarliestStatus(r: TrackingResponse)
    ensures IsDelivered(r) <==>
            exists i :: 0 <= i < |r.shipmentData| && r.shipmentData[i].shipment.Some?
                        && (forall j :: 0 <= j < i ==> r.shipmentData[j].shipment.None?)
                        && r.shipmentData[i].shipment.value.status.Some?
                        && r.shipmentData[i].shipment.value.status.value.status == Some("Delivered")
  {
    FirstShipmentIsEarliest(r);
    var ws := r.shipmentData;
    if exists i :: 0 <= i < |ws| && ws[i].shipment.Some? && (forall j :: 0 <= j < i ==> ws[j].shipment.None?)
                   && ws[i].shipment.value.status.Some? && ws[i].shipment.value.status.value.status == Some("Delivered") {
      var i :| 0 <= i < |ws| && ws[i].shipment.Some? && (forall j :: 0 <= j < i ==> ws[j].shipment.None?)
               && ws[i].shipment.value.status.Some? && ws[i].shipment.value.status.value.status == Some("Delivered");
      var k :| 0 <= k < |ws| && ws[k].shipment == FirstShipment(r) && forall j :: 0 <= j < k ==> ws[j].shipment.None?;
      assert !(i < k) && !(k < i);
    }
  }

  /** The RTO test also looks at the earliest shipment alone: it holds exactly when the earliest
      wrapper that has a shipment carries a non-empty RTO start date, whatever later ones hold. */
  lemma RtoReadsEarliestShipment(r: TrackingResponse)
    ensures IsRto(r) <==>
            exists i :: 0 <= i < |r.shipmentData| && r.shipmentData[i].shipment.Some?
                        && (forall j :: 0 <= j < i ==> r.shipmentData[j].shipment.None?)
                        && r.shipmentData[i].shipment.value.rtoStartedDate.Some?
                        && r.shipmentData[i].shipment.value.rtoStartedDate.value != ""
  {
    FirstShipmentIsEarliest(r);
    var ws := r.shipmentData;
    if exists i :: 0 <= i < |ws| && ws[i].shipment.Some? && (forall j :: 0 <= j < i ==> ws[j].shipment.None?)
                   && ws[i].shipment.value.rtoStartedDate.Some? && ws[i].shipment.value.rtoStartedDate.value != "" {
      var i :| 0 <= i < |ws| && ws[i].shipment.Some? && (forall j :: 0 <= j < i ==> ws[j].shipment.None?)
               && ws[i].shipment.value.rtoStartedDate.Some? && ws[i].shipment.value.rtoStartedDate.value != "";
      var k :| 0 <= k < |ws| && ws[k].shipment == FirstShipment(r) && forall j :: 0 <= j < k ==> ws[j].shipment.None?;
      assert !(i < k) && !(k < i);
    }
  }

  /** No wrapper holds a shipment (in particular, the response is empty): every accessor yields
      nothing and neither status predicate holds. */
  lemma NothingToTrack(r: TrackingResponse)
    requires forall i :: 0 <= i < |r.shipmentData| ==> r.shipmentData[i].shipment.None?
    ensures Shipments(r) == [] && FirstShipment(r).None?
    ensures LatestStatus(r).None? && LatestStatusLocation(r).None? && LatestScan(r).None?
    ensures !IsDelivered(r) && !IsRto(r)
  {
    EarliestShipment(r.shipmentData);
  }

  /** A delivered or returning shipment implies there is a first shipment. */
  lemma StatusNeedsShipment(r: TrackingResponse)
    ensures IsDelivered(r) || IsRto(r) ==> FirstShipment(r).Some?
  {
  }

  /** One wrapper whose shipment's status reads "Delivered" and that has no RTO start date:
      delivered, not returning. */
  lemma DeliveredScenario(status: ShipmentStatus)
    requires status.status == Some("Delivered")
    ensures var r := TrackingResponse([ShipmentWrapper(Some(BlankTracker.(status := Some(status))))]);
            IsDelivered(r) && !IsRto(r)
  {
  }
}
