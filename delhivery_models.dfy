/** The request and response records of the courier API other than order creation, tracking
    responses, fee quotes and warehouses (src/pydelhivery/models/DelhiveryModels.py): their field
    constraints, their query-parameter builders and their derived accessors. */
module DelhiveryModels {
  import opened Wrappers
  import opened Schema
  import Text
  import Seqs

  // ===========================================================================
  // Shipping-cost request: billing mode, weight, two 6-digit pincodes
  // ===========================================================================

  datatype ShippingCostRequest = ShippingCostRequest(
    md: string,      // billing mode, "E" (Express) or "S" (Surface)
    cgm: int,        // chargeable weight in grams
    oPin: int,       // origin pincode
    dPin: int,       // destination pincode
    ss: string,      // shipment status, "Delivered", "RTO" or "DTO"
    pt: string       // payment type, "Pre-paid" or "COD"
  )

  const PinMessage := "Pincode must be a valid 6-digit number"

  /** The range `validate_pin` accepts. */
  predicate ValidPin(v: int) {
    100000 <= v <= 999999
  }

  /** `validate_pin`, the after-validator shared by `o_pin` and `d_pin`. */
  function ValidatePin(r: Result<int, FieldError>, key: string): (c: Result<int, FieldError>)
    ensures c.Ok? <==> r.Ok? && 100000 <= r.value <= 999999
    ensures c.Ok? ==> c.value == r.value
    ensures r.Ok? && c.Err? ==> c.error == FieldError(key, ValueError(PinMessage))
  {
    Constrain(r, key, ValidPin, ValueError(PinMessage))
  }

  /** The range check is the "6-digit number" its message speaks of: an int passes exactly when
      it is non-negative and its decimal form has six digits. */
  lemma ValidPinIsSixDigits(v: int)
    ensures ValidPin(v) <==> v >= 0 && |Text.NatToString(v)| == 6
  {
    if v >= 0 {
      Text.SixDigits(v);
    }
  }


  function ParseShippingCostRequest(p: Payload): (r: Result<ShippingCostRequest, ValidationError>)
    ensures r.Ok? <==>
      && "md" in p && p["md"] in {JStr("E"), JStr("S")}
      && "cgm" in p && p["cgm"].JInt? && p["cgm"].i >= 0
      && "o_pin" in p && p["o_pin"].JInt? && 100000 <= p["o_pin"].i <= 999999
      && "d_pin" in p && p["d_pin"].JInt? && 100000 <= p["d_pin"].i <= 999999
      && "ss" in p && p["ss"] in {JStr("Delivered"), JStr("RTO"), JStr("DTO")}
      && "pt" in p && p["pt"] in {JStr("Pre-paid"), JStr("COD")}
    ensures r.Ok? ==> r.value == ShippingCostRequest(p["md"].s, p["cgm"].i, p["o_pin"].i,
                                                     p["d_pin"].i, p["ss"].s, p["pt"].s)
    ensures r.Err? ==> r.error.fieldErrors != [] && r.error.extras == {}
  {
    var md := Choice(p, "md", ["E", "S"], None);
    var cgm := Constrain(Int(p, "cgm"), "cgm", (v: int) => v >= 0, GreaterThanEqual(0));
    var oPin := ValidatePin(Int(p, "o_pin"), "o_pin");
    var dPin := ValidatePin(Int(p, "d_pin"), "d_pin");
    var ss := Choice(p, "ss", ["Delivered", "RTO", "DTO"], None);
    var pt := Choice(p, "pt", ["Pre-paid", "COD"], None);
    if md.Ok? && cgm.Ok? && oPin.Ok? && dPin.Ok? && ss.Ok? && pt.Ok? then
      Ok(ShippingCostRequest(md.value, cgm.value, oPin.value, dPin.value, ss.value, pt.value))
    else
      Err(ValidationError(Errors(md) + Errors(cgm) + Errors(oPin) + Errors(dPin) + Errors(ss) + Errors(pt), {}))
  }

  /** A five-digit origin pincode is refused and a six-digit one accepted. */
  lemma PincodeScenario()
    ensures ParseShippingCostRequest(map["md" := JStr("S"), "cgm" := JInt(500), "o_pin" := JInt(99999),
              "d_pin" := JInt(110001), "ss" := JStr("Delivered"), "pt" := JStr("Pre-paid")]).Err?
    ensures ParseShippingCostRequest(map["md" := JStr("S"), "cgm" := JInt(500), "o_pin" := JInt(560001),
              "d_pin" := JInt(110001), "ss" := JStr("Delivered"), "pt" := JStr("Pre-paid")]).Ok?
  {
    var bad := map["md" := JStr("S"), "cgm" := JInt(500), "o_pin" := JInt(99999),
                    "d_pin" := JInt(110001), "ss" := JStr("Delivered"), "pt" := JStr("Pre-paid")];
    assert bad["o_pin"] == JInt(99999);
    var good := map["md" := JStr("S"), "cgm" := JInt(500), "o_pin" := JInt(560001),
                     "d_pin" := JInt(110001), "ss" := JStr("Delivered"), "pt" := JStr("Pre-paid")];
    assert good["md"] == JStr("S") && good["cgm"] == JInt(500) && good["o_pin"] == JInt(560001);
    assert good["d_pin"] == JInt(110001) && good["ss"] == JStr("Delivered") && good["pt"] == JStr("Pre-paid");
  }

  // ===========================================================================
  // Pickup request and the closed pickup success response
  // ===========================================================================

  const TimeRegex := "^\\d{2}:\\d{2}:\\d{2}$"
  const DateRegex := "^\\d{4}-\\d{2}-\\d{2}$"

  /** `\d{2}:\d{2}:\d{2}`, character by character. */
  const TimeShape: Shape := [Digit, Digit, Exactly(':'), Digit, Digit, Exactly(':'), Digit, Digit]

  /** `\d{4}-\d{2}-\d{2}`, character by character. */
  const DateShape: Shape :=
    [Digit, Digit, Digit, Digit, Exactly('-'), Digit, Digit, Exactly('-'), Digit, Digit]

  function TwoDigits(n: nat): (s: string)
    requires n < 100
  {
    [Text.DigitChar(n / 10), Text.DigitChar(n % 10)]
  }

  function FourDigits(n: nat): (s: string)
    requires n < 10000
  {
    TwoDigits(n / 100) + TwoDigits(n % 100)
  }

  /** `HH:MM:SS` written with zero padding. */
  function ClockText(h: nat, m: nat, s: nat): string
    requires h < 100 && m < 100 && s < 100
  {
    TwoDigits(h) + ":" + TwoDigits(m) + ":" + TwoDigits(s)
  }

  /** `YYYY-MM-DD` written with zero padding. */
  function CalendarText(y: nat, mo: nat, d: nat): string
    requires y < 10000 && mo < 100 && d < 100
  {
    FourDigits(y) + "-" + TwoDigits(mo) + "-" + TwoDigits(d)
  }

  function PairValue(a: char, b: char): (n: nat)
    requires Text.IsAsciiDigit(a) && Text.IsAsciiDigit(b)
    ensures n < 100 && TwoDigits(n) == [a, b]
  {
    var hi, lo := Text.DigitValue(a), Text.DigitValue(b);
    assert (hi * 10 + lo) / 10 == hi && (hi * 10 + lo) % 10 == lo;
    hi * 10 + lo
  }

  /** The time pattern accepts exactly the zero-padded renderings of three numbers below 100
      (so "99:99:99" passes: the pattern checks the shape, not the clock). */
  lemma TimeShapeIsClockText(t: string)
    ensures FullMatch(TimeShape, t) <==>
            exists h: nat, m: nat, s: nat :: h < 100 && m < 100 && s < 100 && t == ClockText(h, m, s)
  {
    if FullMatch(TimeShape, t) {
      var h, m, s := PairValue(t[0], t[1]), PairValue(t[3], t[4]), PairValue(t[6], t[7]);
      assert t == ClockText(h, m, s);
    }
    if exists h: nat, m: nat, s: nat :: h < 100 && m < 100 && s < 100 && t == ClockText(h, m, s) {
      var h: nat, m: nat, s: nat :| h < 100 && m < 100 && s < 100 && t == ClockText(h, m, s);
      assert forall i :: 0 <= i < 8 ==> AtomMatches(TimeShape[i], t[i]);
    }
  }

  function QuadValue(a: char, b: char, c: char, d: char): (n: nat)
    requires Text.IsAsciiDigit(a) && Text.IsAsciiDigit(b) && Text.IsAsciiDigit(c) && Text.IsAsciiDigit(d)
    ensures n < 10000 && FourDigits(n) == [a, b, c, d]
  {
    var hi, lo := PairValue(a, b), PairValue(c, d);
    assert (hi * 100 + lo) / 100 == hi && (hi * 100 + lo) % 100 == lo;
    hi * 100 + lo
  }

  lemma CalendarTextMatches(y: nat, mo: nat, d: nat)
    requires y < 10000 && mo < 100 && d < 100
    ensures FullMatch(DateShape, CalendarText(y, mo, d))
  {
    var t := CalendarText(y, mo, d);
    assert t[..4] == FourDigits(y) && t[4] == '-' && t[5..7] == TwoDigits(mo) && t[7] == '-'
           && t[8..] == TwoDigits(d);
  }

  lemma DateShapeChars(t: string)
    requires FullMatch(DateShape, t)
    ensures |t| == 10 && t[4] == '-' && t[7] == '-'
    ensures Text.IsAsciiDigit(t[0]) && Text.IsAsciiDigit(t[1]) && Text.IsAsciiDigit(t[2]) && Text.IsAsciiDigit(t[3])
    ensures Text.IsAsciiDigit(t[5]) && Text.IsAsciiDigit(t[6]) && Text.IsAsciiDigit(t[8]) && Text.IsAsciiDigit(t[9])
  {
    assert forall i :: 0 <= i < 10 ==> AtomMatches(DateShape[i], t[i]);
  }

  lemma DateParts(t: string) returns (y: nat, mo: nat, d: nat)
    requires FullMatch(DateShape, t)
    ensures y < 10000 && mo < 100 && d < 100 && t == CalendarText(y, mo, d)
  {
    DateShapeChars(t);
    y := QuadValue(t[0], t[1], t[2], t[3]);
    mo, d := PairValue(t[5], t[6]), PairValue(t[8], t[9]);
    assert t[4] == '-' && t[7] == '-';
    assert t == t[..4] + [t[4]] + t[5..7] + [t[7]] + t[8..];
    assert t[..4] == FourDigits(y) && t[5..7] == TwoDigits(mo) && t[8..] == TwoDigits(d);
  }

  /** The date pattern accepts exactly the zero-padded renderings of a number below 10000 and
      two below 100 (month and day ranges are not checked). */
  lemma DateShapeIsCalendarText(t: string)
    ensures FullMatch(DateShape, t) <==>
            exists y: nat, mo: nat, d: nat :: y < 10000 && mo < 100 && d < 100 && t == CalendarText(y, mo, d)
  {
    if FullMatch(DateShape, t) {
      var y, mo, d := DateParts(t);
    }
    if exists y: nat, mo: nat, d: nat :: y < 10000 && mo < 100 && d < 100 && t == CalendarText(y, mo, d) {
      var y: nat, mo: nat, d: nat :| y < 10000 && mo < 100 && d < 100 && t == CalendarText(y, mo, d);
      CalendarTextMatches(y, mo, d);
    }
  }

  function PickupTime(p: Payload, key: string): (r: Result<string, FieldError>)
    ensures r.Ok? <==> key in p && p[key].JStr? && FullMatch(TimeShape, p[key].s)
    ensures r.Ok? ==> r.value == p[key].s
    ensures r.Err? ==> r.error.field == key
  {
    Constrain(Str(p, key), key, (s: string) => FullMatch(TimeShape, s), PatternMismatch(TimeRegex))
  }

  function PickupDate(p: Payload, key: string): (r: Result<string, FieldError>)
    ensures r.Ok? <==> key in p && p[key].JStr? && FullMatch(DateShape, p[key].s)
    ensures r.Ok? ==> r.value == p[key].s
    ensures r.Err? ==> r.error.field == key
  {
    Constrain(Str(p, key), key, (s: string) => FullMatch(DateShape, s), PatternMismatch(DateRegex))
  }

  datatype PickupRequest = PickupRequest(
    pickupTime: string,
    pickupDate: string,
    pickupLocation: string,
    expectedPackageCount: int
  )


  function ParsePickupRequest(p: Payload): (r: Result<PickupRequest, ValidationError>)
    ensures r.Ok? <==>
      && "pickup_time" in p && p["pickup_time"].JStr? && FullMatch(TimeShape, p["pickup_time"].s)
      && "pickup_date" in p && p["pickup_date"].JStr? && FullMatch(DateShape, p["pickup_date"].s)
      && "pickup_location" in p && p["pickup_location"].JStr?
      && "expected_package_count" in p && p["expected_package_count"].JInt?
      && p["expected_package_count"].i >= 1
    ensures r.Ok? ==> r.value == PickupRequest(p["pickup_time"].s, p["pickup_date"].s,
                                               p["pickup_location"].s, p["expected_package_count"].i)
    ensures r.Err? ==> r.error.fieldErrors != [] && r.error.extras == {}
  {
    var time := PickupTime(p, "pickup_time");
    var date := PickupDate(p, "pickup_date");
    var location := Str(p, "pickup_location");
    var count := Constrain(Int(p, "expected_package_count"), "expected_package_count",
                           (n: int) => n >= 1, GreaterThanEqual(1));
    if time.Ok? && date.Ok? && location.Ok? && count.Ok? then
      Ok(PickupRequest(time.value, date.value, location.value, count.value))
    else
      Err(ValidationError(Errors(time) + Errors(date) + Errors(location) + Errors(count), {}))
  }

  datatype PickupSuccessResponse = PickupSuccessResponse(
    pickupLocationName: string,
    clientName: string,
    pickupTime: string,
    pickupId: int,
    incomingCenterName: string,
    expectedPackageCount: int,
    pickupDate: string
  )

  const PickupSuccessFields := {"pickup_location_name", "client_name", "pickup_time", "pickup_id",
                                "incoming_center_name", "expected_package_count", "pickup_date"}

  /** The pickup success response is a closed schema (`extra="forbid"`). */
  function ParsePickupSuccessResponse(p: Payload): (r: Result<PickupSuccessResponse, ValidationError>)
    ensures r.Ok? <==>
      && p.Keys == PickupSuccessFields
      && p["pickup_location_name"].JStr? && p["client_name"].JStr?
      && p["pickup_time"].JStr? && FullMatch(TimeShape, p["pickup_time"].s)
      && p["pickup_id"].JInt? && p["incoming_center_name"].JStr? && p["expected_package_count"].JInt?
      && p["pickup_date"].JStr? && FullMatch(DateShape, p["pickup_date"].s)
    ensures r.Ok? ==> r.value == PickupSuccessResponse(
              p["pickup_location_name"].s, p["client_name"].s, p["pickup_time"].s, p["pickup_id"].i,
              p["incoming_center_name"].s, p["expected_package_count"].i, p["pickup_date"].s)
    ensures r.Err? ==> forall k :: k in r.error.extras <==> k in p && k !in PickupSuccessFields
  {
    var locationName := Str(p, "pickup_location_name");
    var clientName := Str(p, "client_name");
    var time := PickupTime(p, "pickup_time");
    var id := Int(p, "pickup_id");
    var center := Str(p, "incoming_center_name");
    var count := Int(p, "expected_package_count");
    var date := PickupDate(p, "pickup_date");
    var extras := Extras(p, PickupSuccessFields, Forbid);
    if && locationName.Ok? && clientName.Ok? && time.Ok? && id.Ok? && center.Ok? && count.Ok? && date.Ok?
       && extras == {}
    then
      Ok(PickupSuccessResponse(locationName.value, clientName.value, time.value, id.value,
                               center.value, count.value, date.value))
    else
      Err(ValidationError(Errors(locationName) + Errors(clientName) + Errors(time) + Errors(id)
                          + Errors(center) + Errors(count) + Errors(date), extras))
  }

  /** Closed schema: a payload with any key outside the seven declared fields is refused, and
      the refusal names that key, whatever the declared fields hold. */
  lemma ExtraKeyRejected(p: Payload, k: string)
    requires k in p && k !in PickupSuccessFields
    ensures ParsePickupSuccessResponse(p).Err?
    ensures k in ParsePickupSuccessResponse(p).error.extras
  {
  }

  const PickupScenario: Payload := map[
    "pickup_location_name" := JStr("WH1"), "client_name" := JStr("Acme"),
    "pickup_time" := JStr("11:00:00"), "pickup_id" := JInt(42),
    "incoming_center_name" := JStr("BLR"), "expected_package_count" := JInt(3),
    "pickup_date" := JStr("2024-01-05")]

  /** The documented response parses; the same response with one more key does not. */
  lemma PickupSuccessScenario()
    ensures ParsePickupSuccessResponse(PickupScenario).Ok?
    ensures ParsePickupSuccessResponse(PickupScenario["extra" := JStr("x")]).Err?
  {
    assert FullMatch(TimeShape, "11:00:00");
    assert FullMatch(DateShape, "2024-01-05");
    assert PickupScenario.Keys == PickupSuccessFields;
    ExtraKeyRejected(PickupScenario["extra" := JStr("x")], "extra");
  }

  // ===========================================================================
  // Packing slip (label) request and response
  // ===========================================================================

  datatype PdfSize = A4 | FourR

  function PdfSizeName(size: PdfSize): string {
    match size
    case A4 => "A4"
    case FourR => "4R"
  }

  /** `pdf` defaults to False and `pdf_size` to None. */
  datatype PackingSlipRequest = PackingSlipRequest(waybill: string, pdf: Option<bool>, pdfSize: Option<PdfSize>)

  /** Python's `str(b).lower()`. */
  function LowerBoolText(b: bool): string {
    if b then "true" else "false"
  }

  /** The inverse of `build_params`: it recovers the request from its query parameters, which
      shows that building them loses no request data. */
  function ReadPackingSlipParams(params: map<string, string>): (r: Option<PackingSlipRequest>)
  {
    if "wbns" !in params then None
    else
      var pdf: Option<Option<bool>> :=
        if "pdf" !in params then Some(None)
        else if params["pdf"] == "true" then Some(Some(true))
        else if params["pdf"] == "false" then Some(Some(false))
        else None;
      var size: Option<Option<PdfSize>> :=
        if "pdf_size" !in params then Some(None)
        else if params["pdf_size"] == "A4" then Some(Some(A4))
        else if params["pdf_size"] == "4R" then Some(Some(FourR))
        else None;
      if pdf.None? || size.None? then None
      else Some(PackingSlipRequest(params["wbns"], pdf.value, size.value))
  }

  /** `build_params`: `wbns` always, `pdf` exactly when the flag is set (True or False),
      `pdf_size` exactly when a size is chosen, and nothing else; `ReadPackingSlipParams`
      recovers the request from the parameters unchanged. */
  method BuildPackingSlipParams(req: PackingSlipRequest) returns (params: map<string, string>)
    ensures params.Keys == {"wbns"} + (if req.pdf.Some? then {"pdf"} else {})
                           + (if req.pdfSize.Some? then {"pdf_size"} else {})
    ensures params["wbns"] == req.waybill
    ensures "pdf" in params ==> params["pdf"] in {"true", "false"}
                                && (params["pdf"] == "true" <==> req.pdf == Some(true))
    ensures "pdf_size" in params ==> params["pdf_size"] == PdfSizeName(req.pdfSize.value)
    ensures ReadPackingSlipParams(params) == Some(req)
  {
    params := map["wbns" := req.waybill];
    if req.pdf.Some? {
      params := params["pdf" := LowerBoolText(req.pdf.value)];
    }
    if req.pdfSize.Some? {
      params := params["pdf_size" := PdfSizeName(req.pdfSize.value)];
    }
  }

  /** The default request (`pdf=False`, no size) sends `pdf=false` and no size. */
  method DefaultPackingSlipParams(waybill: string) returns (params: map<string, string>)
    ensures params == map["wbns" := waybill, "pdf" := "false"]
  {
    params := BuildPackingSlipParams(PackingSlipRequest(waybill, Some(false), None));
  }

  datatype PackingSlipPackage = PackingSlipPackage(wbn: string, pdfDownloadLink: Option<string>)

  datatype PackingSlipResponse = PackingSlipResponse(packages: seq<PackingSlipPackage>, packagesFound: int)

  /** The waybill of every package, in package order. */
  function SlipWaybills(r: PackingSlipResponse): (w: seq<string>)
    ensures |w| == |r.packages|
    ensures forall i :: 0 <= i < |w| ==> w[i] == r.packages[i].wbn
  {
    seq(|r.packages|, i requires 0 <= i < |r.packages| => r.packages[i].wbn)
  }

  /** A package whose link is truthy: present and non-empty. */
  predicate HasLink(p: PackingSlipPackage) {
    p.pdfDownloadLink.Some? && p.pdfDownloadLink.value != ""
  }

  function Link(p: PackingSlipPackage): string {
    if p.pdfDownloadLink.Some? then p.pdfDownloadLink.value else ""
  }

  function LinksOf(ps: seq<PackingSlipPackage>): (links: seq<string>)
    ensures |links| == |ps|
    ensures forall i :: 0 <= i < |ps| ==> links[i] == Link(ps[i])
  {
    seq(|ps|, i requires 0 <= i < |ps| => Link(ps[i]))
  }

  /** The truthy links, in package order. */
  function PdfLinks(r: PackingSlipResponse): (links: seq<string>)
    ensures |links| <= |r.packages|
    ensures forall i :: 0 <= i < |links| ==> links[i] != ""
  {
    var kept := Seqs.Filter(HasLink, r.packages);
    assert forall i :: 0 <= i < |kept| ==> kept[i] in kept;
    LinksOf(kept)
  }

  function FirstPdfLink(r: PackingSlipResponse): (link: Option<string>)
    ensures link.None? <==> PdfLinks(r) == []
    ensures link.Some? ==> link.value == PdfLinks(r)[0]
  {
    var links := PdfLinks(r);
    if links != [] then Some(links[0]) else None
  }

  /** A link is listed exactly when some package carries it, non-empty. */
  lemma PdfLinksMembership(r: PackingSlipResponse, link: string)
    ensures link in PdfLinks(r) <==>
            link != "" && exists i :: 0 <= i < |r.packages| && r.packages[i].pdfDownloadLink == Some(link)
  {
    var kept := Seqs.Filter(HasLink, r.packages);
    if link in PdfLinks(r) {
      var j :| 0 <= j < |kept| && Link(kept[j]) == link;
      Seqs.FilterMembership(HasLink, r.packages, kept[j]);
      var i :| 0 <= i < |r.packages| && r.packages[i] == kept[j];
    }
    if link != "" && exists i :: 0 <= i < |r.packages| && r.packages[i].pdfDownloadLink == Some(link) {
      var i :| 0 <= i < |r.packages| && r.packages[i].pdfDownloadLink == Some(link);
      Seqs.FilterMembership(HasLink, r.packages, r.packages[i]);
      var j :| 0 <= j < |kept| && kept[j] == r.packages[i];
      assert PdfLinks(r)[j] == link;
    }
  }

  /** Links keep package order: the links of two batches of packages are the links of the first
      batch followed by those of the second. */
  lemma PdfLinksAppend(a: seq<PackingSlipPackage>, b: seq<PackingSlipPackage>, found: int)
    ensures PdfLinks(PackingSlipResponse(a + b, found))
            == PdfLinks(PackingSlipResponse(a, found)) + PdfLinks(PackingSlipResponse(b, found))
  {
    Seqs.FilterAppend(HasLink, a, b);
  }

  /** The first link belongs to the first package that has a truthy link. */
  lemma FirstPdfLinkIsEarliest(r: PackingSlipResponse)
    ensures FirstPdfLink(r).Some? <==> exists i :: 0 <= i < |r.packages| && HasLink(r.packages[i])
    ensures FirstPdfLink(r).Some? ==>
            exists i :: 0 <= i < |r.packages| && r.packages[i].pdfDownloadLink == FirstPdfLink(r)
                        && forall j :: 0 <= j < i ==> !HasLink(r.packages[j])
  {
    var kept := Seqs.Filter(HasLink, r.packages);
    Seqs.FilterAll(HasLink, r.packages);
    if kept != [] {
      Seqs.FilterHead(HasLink, r.packages);
    }
  }

  // ===========================================================================
  // Tracking request: query parameters
  // ===========================================================================

  /** `waybills` defaults to None and `ref_ids` to "". */
  datatype TrackingRequest = TrackingRequest(waybills: Option<seq<string>>, refIds: Option<string>)

  /** `",".join(None)` raises TypeError. */
  datatype ParamsError = JoinOfNone

  predicate NoCommas(parts: seq<string>) {
    forall i :: 0 <= i < |parts| ==> ',' !in parts[i]
  }

  /** `DelhiveryOrderTrackingRequest.build_params` as written: `ref_ids` is filled from the
      waybills, and a request with ref ids but no waybills fails on the join. */
  method BuildTrackingParams(req: TrackingRequest) returns (r: Result<map<string, string>, ParamsError>)
    ensures r.Err? <==> req.refIds.Some? && req.waybills.None?
    ensures r.Ok? ==> r.value.Keys <= {"waybill", "ref_ids"}
    ensures r.Ok? ==> ("waybill" in r.value <==> req.waybills.Some? && req.waybills.value != [])
    ensures r.Ok? ==> ("ref_ids" in r.value <==> req.refIds.Some?)
    ensures r.Ok? && "waybill" in r.value ==> r.value["waybill"] == Text.Join(',', req.waybills.value)
    ensures r.Ok? && "ref_ids" in r.value ==> r.value["ref_ids"] == Text.Join(',', req.waybills.value)
    ensures r.Ok? && "waybill" in r.value && NoCommas(req.waybills.value) ==>
            Text.Split(',', r.value["waybill"]) == req.waybills.value
  {
    var params: map<string, string> := map[];
    if req.waybills.Some? && req.waybills.value != [] {
      params := params["waybill" := Text.Join(',', req.waybills.value)];
      if NoCommas(req.waybills.value) {
        Text.SplitJoin(',', req.waybills.value);
      }
    }
    if req.refIds.Some? {
      if req.waybills.None? {
        return Err(JoinOfNone);
      }
      params := params["ref_ids" := Text.Join(',', req.waybills.value)];
    }
    return Ok(params);
  }

  /** The defect shown on one input: ref id "R7" is asked for, the waybills are sent instead. */
  method RefIdsDefectWitness() returns (r: Result<map<string, string>, ParamsError>)
    ensures r.Ok? && "ref_ids" in r.value && r.value["ref_ids"] == "W1,W2" && r.value["ref_ids"] != "R7"
  {
    r := BuildTrackingParams(TrackingRequest(Some(["W1", "W2"]), Some("R7")));
  }

  /** The defect shown on the default request (no waybills, `ref_ids=""`): the join fails. */
  method DefaultTrackingRequestFails() returns (r: Result<map<string, string>, ParamsError>)
    ensures r.Err?
  {
    r := BuildTrackingParams(TrackingRequest(None, Some("")));
  }

  /** `build_params` as evidently intended: `ref_ids` carries the request's own ref ids. It never
      fails, and both parameters carry exactly what the request holds. */
  method BuildTrackingParamsFixed(req: TrackingRequest) returns (params: map<string, string>)
    ensures params.Keys <= {"waybill", "ref_ids"}
    ensures "waybill" in params <==> req.waybills.Some? && req.waybills.value != []
    ensures "waybill" in params ==> params["waybill"] == Text.Join(',', req.waybills.value)
    ensures "waybill" in params && NoCommas(req.waybills.value) ==>
            Text.Split(',', params["waybill"]) == req.waybills.value
    ensures "ref_ids" in params <==> req.refIds.Some?
    ensures "ref_ids" in params ==> params["ref_ids"] == req.refIds.value
  {
    params := map[];
    if req.waybills.Some? && req.waybills.value != [] {
      params := params["waybill" := Text.Join(',', req.waybills.value)];
      if NoCommas(req.waybills.value) {
        Text.SplitJoin(',', req.waybills.value);
      }
    }
    if req.refIds.Some? {
      params := params["ref_ids" := req.refIds.value];
    }
  }

  // ===========================================================================
  // Package edit (cancellation) request
  // ===========================================================================

  datatype PackageEditRequest = PackageEditRequest(waybill: string, cancellation: string)


  function ParsePackageEditRequest(p: Payload): (r: Result<PackageEditRequest, ValidationError>)
    ensures r.Ok? <==>
      && "waybill" in p && p["waybill"].JStr? && |p["waybill"].s| >= 8
      && ("cancellation" in p ==> p["cancellation"] in {JStr("true"), JStr("false")})
    ensures r.Ok? ==> r.value.waybill == p["waybill"].s
    ensures r.Ok? ==> r.value.cancellation == if "cancellation" in p then p["cancellation"].s else "true"
    ensures r.Err? ==> r.error.fieldErrors != [] && r.error.extras == {}
  {
    var waybill := Constrain(Str(p, "waybill"), "waybill", (s: string) => |s| >= 8, StringTooShort(8));
    var cancellation := Choice(p, "cancellation", ["true", "false"], Some("true"));
    if waybill.Ok? && cancellation.Ok? then Ok(PackageEditRequest(waybill.value, cancellation.value))
    else Err(ValidationError(Errors(waybill) + Errors(cancellation), {}))
  }

  // ===========================================================================
  // Pincode serviceability response
  // ===========================================================================

  datatype Center = Center(
    code: Option<string>, cn: Option<string>, sortCode: Option<string>,
    s: Option<string>, e: Option<string>, u: Option<string>, ud: Option<string>)

  /** One delivery-code entry; the service flags are "Y"/"N" strings passed through unread. */
  datatype PostalCode = PostalCode(
    pin: int,
    city: Option<string>, district: Option<string>, stateCode: Option<string>, countryCode: Option<string>,
    inc: Option<string>, sortCode: Option<string>, remarks: Option<string>,
    maxWeight: Option<real>, maxAmount: Option<real>,
    cod: Option<string>, prePaid: Option<string>, cash: Option<string>, pickup: Option<string>,
    repl: Option<string>, isOda: Option<string>, covidZone: Option<string>,
    protectBlacklist: Option<bool>, sunTat: Option<bool>,
    center: seq<Center>)

  datatype DeliveryCode = DeliveryCode(postalCode: PostalCode)

  datatype PincodeResponse = PincodeResponse(deliveryCodes: seq<DeliveryCode>)

  /** `is_serviceable`: the list of delivery codes is truthy, that is, it holds an entry. */
  predicate IsServiceable(r: PincodeResponse): (b: bool)
    ensures b <==> exists d :: d in r.deliveryCodes
  {
    if r.deliveryCodes == [] then false
    else assert r.deliveryCodes[0] in r.deliveryCodes; true
  }

  /** The postal code of the first delivery-code entry, if any. */
  function FirstPostalCode(r: PincodeResponse): (pc: Option<PostalCode>)
    ensures pc.Some? <==> IsServiceable(r)
    ensures pc.Some? ==> pc.value == r.deliveryCodes[0].postalCode
  {
    if r.deliveryCodes == [] then None else Some(r.deliveryCodes[0].postalCode)
  }

  /** A flag read through the accessors: exactly the string "Y" is true. */
  predicate FlagSet(flag: Option<string>) {
    flag == Some("Y")
  }

  function SupportsCod(r: PincodeResponse): (b: bool)
    ensures b <==> r.deliveryCodes != [] && r.deliveryCodes[0].postalCode.cod == Some("Y")
  {
    match FirstPostalCode(r)
    case None => false
    case Some(pc) => FlagSet(pc.cod)
  }

  function SupportsPrepaid(r: PincodeResponse): (b: bool)
    ensures b <==> r.deliveryCodes != [] && r.deliveryCodes[0].postalCode.prePaid == Some("Y")
  {
    match FirstPostalCode(r)
    case None => false
    case Some(pc) => FlagSet(pc.prePaid)
  }

  function IsOda(r: PincodeResponse): (b: bool)
    ensures b <==> r.deliveryCodes != [] && r.deliveryCodes[0].postalCode.isOda == Some("Y")
  {
    match FirstPostalCode(r)
    case None => false
    case Some(pc) => FlagSet(pc.isOda)
  }

  /** Every flag implies serviceability, and on a non-serviceable response all are false. */
  lemma FlagsNeedService(r: PincodeResponse)
    ensures SupportsCod(r) || SupportsPrepaid(r) || IsOda(r) ==> IsServiceable(r)
    ensures !IsServiceable(r) ==> FirstPostalCode(r).None? && !SupportsCod(r) && !SupportsPrepaid(r) && !IsOda(r)
  {
  }

  /** Only the first entry is read: entries appended after it change no accessor. */
  lemma OnlyFirstEntryRead(r: PincodeResponse, more: seq<DeliveryCode>)
    requires IsServiceable(r)
    ensures var r' := PincodeResponse(r.deliveryCodes + more);
            && IsServiceable(r') && FirstPostalCode(r') == FirstPostalCode(r)
            && SupportsCod(r') == SupportsCod(r) && SupportsPrepaid(r') == SupportsPrepaid(r)
            && IsOda(r') == IsOda(r)
  {
  }

  // ===========================================================================
  // Shipment configuration
  // ===========================================================================

  datatype ShipmentConfig = ShipmentConfig(
    paymentMode: string, shippingMode: string, shipmentWidth: int, shipmentHeight: int, warehouse: string)


  function ParseShipmentConfig(p: Payload): (r: Result<ShipmentConfig, ValidationError>)
    ensures r.Ok? <==>
      && ("payment_mode" in p ==> p["payment_mode"] in {JStr("Prepaid"), JStr("COD")})
      && ("shipping_mode" in p ==> p["shipping_mode"] in {JStr("Surface"), JStr("Express")})
      && ("shipment_width" in p ==> p["shipment_width"].JInt? && p["shipment_width"].i > 0)
      && ("shipment_height" in p ==> p["shipment_height"].JInt? && p["shipment_height"].i > 0)
      && "warehouse" in p && p["warehouse"].JStr? && |p["warehouse"].s| >= 1
    ensures r.Ok? ==> r.value == ShipmentConfig(
              if "payment_mode" in p then p["payment_mode"].s else "Prepaid",
              if "shipping_mode" in p then p["shipping_mode"].s else "Surface",
              if "shipment_width" in p then p["shipment_width"].i else 100,
              if "shipment_height" in p then p["shipment_height"].i else 100,
              p["warehouse"].s)
    ensures r.Err? ==> r.error.fieldErrors != [] && r.error.extras == {}
  {
    var payment := Choice(p, "payment_mode", ["Prepaid", "COD"], Some("Prepaid"));
    var shipping := Choice(p, "shipping_mode", ["Surface", "Express"], Some("Surface"));
    var width := Constrain(IntOr(p, "shipment_width", 100), "shipment_width", (n: int) => n > 0, GreaterThan(0));
    var height := Constrain(IntOr(p, "shipment_height", 100), "shipment_height", (n: int) => n > 0, GreaterThan(0));
    var warehouse := Constrain(Str(p, "warehouse"), "warehouse", (s: string) => |s| >= 1, StringTooShort(1));
    if payment.Ok? && shipping.Ok? && width.Ok? && height.Ok? && warehouse.Ok? then
      Ok(ShipmentConfig(payment.value, shipping.value, width.value, height.value, warehouse.value))
    else
      Err(ValidationError(Errors(payment) + Errors(shipping) + Errors(width) + Errors(height) + Errors(warehouse), {}))
  }

  /** With only a warehouse name given, the defaults (Prepaid, Surface, 100 x 100) apply and
      satisfy their own constraints. */
  lemma ShipmentConfigDefaults(warehouse: string)
    requires |warehouse| >= 1
    ensures ParseShipmentConfig(map["warehouse" := JStr(warehouse)])
            == Ok(ShipmentConfig("Prepaid", "Surface", 100, 100, warehouse))
  {
  }
}
