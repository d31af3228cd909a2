/** Order creation (src/pydelhivery/models/ShippingCreateRequest.py): the address record, the
    per-package outcome report of a CMU ("create manifest upload") call with its success/failure
    split and hard-failure check, and the form payload of the create request. */
module ShippingCreate {
  import opened Wrappers
  import opened Schema
  import Text
  import Seqs

  // ===========================================================================
  // Address data
  // ===========================================================================

  /** `AddressData`; `streetAddress` is read from the key `add`, `pincode` is kept as text. */
  datatype AddressData = AddressData(
    firstName: string,
    lastName: string,
    streetAddress: string,
    pincode: string,
    city: string,
    state: string,
    phone: string)

  /** `pincode: int | str` followed by `validate_pincode`, which stores `str(v)`: an int is
      rendered in decimal (and reads back as the same int), a string is kept as it is. */
  function Pincode(p: Payload, key: string): (r: Result<string, FieldError>)
    ensures r.Ok? <==> key in p && (p[key].JInt? || p[key].JStr?)
    ensures r.Ok? && p[key].JStr? ==> r.value == p[key].s
    ensures r.Ok? && p[key].JInt? ==> Text.ParseInt(r.value) == Some(p[key].i)
    ensures r.Err? ==> r.error.field == key
  {
    if key !in p then Err(FieldError(key, Missing))
    else match p[key]
      case JInt(i) => Text.IntToStringRoundTrip(i); Ok(Text.IntToString(i))
      case JStr(s) => Ok(s)
      case _ => Err(FieldError(key, IntOrStrType))
  }

  function ParseAddressData(p: Payload): (r: Result<AddressData, ValidationError>)
    ensures r.Ok? <==>
      && "firstName" in p && p["firstName"].JStr? && |p["firstName"].s| >= 1
      && "lastName" in p && p["lastName"].JStr? && |p["lastName"].s| >= 1
      && "add" in p && p["add"].JStr?
      && "pincode" in p && (p["pincode"].JInt? || p["pincode"].JStr?)
      && "city" in p && p["city"].JStr?
      && "state" in p && p["state"].JStr?
      && "phone" in p && p["phone"].JStr?
    ensures r.Ok? ==>
      && r.value.firstName == p["firstName"].s && r.value.lastName == p["lastName"].s
      && r.value.streetAddress == p["add"].s
      && r.value.city == p["city"].s && r.value.state == p["state"].s && r.value.phone == p["phone"].s
      && (p["pincode"].JStr? ==> r.value.pincode == p["pincode"].s)
      && (p["pincode"].JInt? ==> Text.ParseInt(r.value.pincode) == Some(p["pincode"].i))
    ensures r.Err? ==> r.error.fieldErrors != [] && r.error.extras == {}
  {
    var first := Constrain(Str(p, "firstName"), "firstName", (s: string) => |s| >= 1, StringTooShort(1));
    var last := Constrain(Str(p, "lastName"), "lastName", (s: string) => |s| >= 1, StringTooShort(1));
    var street := Str(p, "add");
    var pincode := Pincode(p, "pincode");
    var city := Str(p, "city");
    var state := Str(p, "state");
    var phone := Str(p, "phone");
    if first.Ok? && last.Ok? && street.Ok? && pincode.Ok? && city.Ok? && state.Ok? && phone.Ok? then
      Ok(AddressData(first.value, last.value, street.value, pincode.value, city.value, state.value, phone.value))
    else
      Err(ValidationError(Errors(first) + Errors(last) + Errors(street) + Errors(pincode)
                          + Errors(city) + Errors(state) + Errors(phone), {}))
  }

  /** The `full_name` property. */
  function FullName(a: AddressData): (n: string)
    ensures |n| == |a.firstName| + 1 + |a.lastName|
    ensures n[..|a.firstName|] == a.firstName && n[|a.firstName|] == ' ' && n[|a.firstName| + 1..] == a.lastName
  {
    a.firstName + " " + a.lastName
  }

  /** The full name is the two names joined by one space: when neither name holds a space,
      splitting it at the space gives exactly the two names back, and for a validated address
      it has at least three characters, a name on each side of the space. */
  lemma FullNameParts(a: AddressData)
    ensures ' ' !in a.firstName && ' ' !in a.lastName ==> Text.Split(' ', FullName(a)) == [a.firstName, a.lastName]
    ensures |a.firstName| >= 1 && |a.lastName| >= 1 ==>
            && |FullName(a)| >= 3
            && FullName(a)[..|a.firstName|] == a.firstName
            && FullName(a)[|a.firstName|] == ' '
            && FullName(a)[|a.firstName| + 1..] == a.lastName
  {
    var parts := [a.firstName, a.lastName];
    assert parts[1..] == [a.lastName];
    assert Text.Join(' ', parts) == FullName(a);
    if ' ' !in a.firstName && ' ' !in a.lastName {
      Text.SplitJoin(' ', parts);
    }
  }

  /** An int pincode is stored as its decimal text. */
  lemma IntPincodeStoredAsText(p: Payload, n: int)
    requires "pincode" in p && p["pincode"] == JInt(n)
    requires ParseAddressData(p).Ok?
    ensures ParseAddressData(p).value.pincode == Text.IntToString(n)
    ensures n >= 0 ==> Text.AllDigits(ParseAddressData(p).value.pincode)
  {
  }

  // ===========================================================================
  // CMU create response: per-package outcomes
  // ===========================================================================

  datatype PackageStatus = Success | Fail

  /** `DelhiveryCMUPackage`. `sort_code` is declared twice; the later `Optional[str] = None`
      declaration is the one in force. */
  datatype CmuPackage = CmuPackage(
    status: PackageStatus,
    client: string,
    sortCode: Option<string>,
    remarks: seq<string>,
    waybill: string,
    codAmount: real,
    payment: string,          // "Pre-paid" or "COD"
    serviceable: bool,
    refnum: string)

  datatype CmuCreateResponse = CmuCreateResponse(
    success: bool,
    uploadWbn: string,
    packageCount: int,
    packages: seq<CmuPackage>,
    prepaidCount: int,
    codCount: int,
    cashPickupsCount: real,
    pickupsCount: int,
    replacementCount: int,
    rmk: Option<string>,
    codAmount: real,
    cashPickups: real)

  predicate Succeeded(p: CmuPackage) {
    p.status == Success
  }

  predicate Failed(p: CmuPackage) {
    p.status != Success
  }

  function WaybillsOf(ps: seq<CmuPackage>): (w: seq<string>)
    ensures |w| == |ps|
    ensures forall i :: 0 <= i < |ps| ==> w[i] == ps[i].waybill
  {
    seq(|ps|, i requires 0 <= i < |ps| => ps[i].waybill)
  }

  /** The `waybills` property: the waybill of every successful package, in package order. */
  function Waybills(r: CmuCreateResponse): (w: seq<string>)
    ensures |w| <= |r.packages|
  {
    WaybillsOf(Seqs.Filter(Succeeded, r.packages))
  }

  /** The `failed_packages` property: every package whose status is not "Success", in order. */
  function FailedPackages(r: CmuCreateResponse): (f: seq<CmuPackage>)
    ensures |f| <= |r.packages|
    ensures forall p :: p in f ==> p.status == PackageStatus.Fail
  {
    Seqs.Filter(Failed, r.packages)
  }

  /** A waybill is listed exactly when some successful package carries it. */
  lemma WaybillsMembership(r: CmuCreateResponse, w: string)
    ensures w in Waybills(r) <==> exists i :: 0 <= i < |r.packages| && r.packages[i].status == Success && r.packages[i].waybill == w
  {
    var ok := Seqs.Filter(Succeeded, r.packages);
    if w in Waybills(r) {
      var j :| 0 <= j < |ok| && ok[j].waybill == w;
      Seqs.FilterMembership(Succeeded, r.packages, ok[j]);
      var i :| 0 <= i < |r.packages| && r.packages[i] == ok[j];
    }
    if exists i :: 0 <= i < |r.packages| && r.packages[i].status == Success && r.packages[i].waybill == w {
      var i :| 0 <= i < |r.packages| && r.packages[i].status == Success && r.packages[i].waybill == w;
      Seqs.FilterMembership(Succeeded, r.packages, r.packages[i]);
      var j :| 0 <= j < |ok| && ok[j] == r.packages[i];
      assert Waybills(r)[j] == w;
    }
  }

  /** Both lists keep package order: for two batches of packages, each is the first batch's list
      followed by the second's. */
  lemma PackagesKeepOrder(r: CmuCreateResponse, a: seq<CmuPackage>, b: seq<CmuPackage>)
    requires r.packages == a + b
    ensures Waybills(r) == Waybills(r.(packages := a)) + Waybills(r.(packages := b))
    ensures FailedPackages(r) == FailedPackages(r.(packages := a)) + FailedPackages(r.(packages := b))
  {
    Seqs.FilterAppend(Succeeded, a, b);
    Seqs.FilterAppend(Failed, a, b);
  }

  /** The successful and the failed packages split the package list: together they hold every
      package exactly as often as the list does, and a package is failed exactly when it is in
      the list with a status other than "Success". */
  lemma PackagesPartition(r: CmuCreateResponse, p: CmuPackage)
    ensures multiset(Seqs.Filter(Succeeded, r.packages)) + multiset(FailedPackages(r)) == multiset(r.packages)
    ensures |Waybills(r)| + |FailedPackages(r)| == |r.packages|
    ensures p in FailedPackages(r) <==> p in r.packages && p.status == PackageStatus.Fail
  {
    Seqs.FilterPartition(Succeeded, Failed, r.packages);
    Seqs.FilterMembership(Failed, r.packages, p);
  }

  // ===========================================================================
  // Error messages and the hard-failure check
  // ===========================================================================

  predicate NonEmptyText(s: string) {
    s != ""
  }

  /** The non-empty remarks of `ps`, package after package, each package's in its own order. */
  function RemarksOf(ps: seq<CmuPackage>): (e: seq<string>)
    ensures forall m :: m in e ==> m != ""
  {
    if ps == [] then []
    else Seqs.Filter(NonEmptyText, ps[0].remarks) + RemarksOf(ps[1..])
  }

  /** What the `error_messages` property computes: the non-empty remarks of the failed packages. */
  function FailedRemarks(r: CmuCreateResponse): (e: seq<string>)
    ensures forall m :: m in e ==> m != ""
    ensures (forall i :: 0 <= i < |r.packages| ==> r.packages[i].status == Success) ==> e == []
  {
    Seqs.FilterAll(Failed, r.packages);
    RemarksOf(FailedPackages(r))
  }

  lemma {:induction false} RemarksOfAppend(a: seq<CmuPackage>, b: seq<CmuPackage>)
    ensures RemarksOf(a + b) == RemarksOf(a) + RemarksOf(b)
  {
    if a == [] {
      assert a + b == b;
    } else {
      assert (a + b)[1..] == a[1..] + b;
      RemarksOfAppend(a[1..], b);
    }
  }

  lemma {:induction false} RemarksOfMembership(ps: seq<CmuPackage>, m: string)
    ensures m in RemarksOf(ps) <==> m != "" && exists i :: 0 <= i < |ps| && m in ps[i].remarks
  {
    if ps != [] {
      RemarksOfMembership(ps[1..], m);
      Seqs.FilterMembership(NonEmptyText, ps[0].remarks, m);
      if exists i :: 0 <= i < |ps| && m in ps[i].remarks {
        var i :| 0 <= i < |ps| && m in ps[i].remarks;
        if i > 0 { assert ps[i] == ps[1..][i - 1]; }
      }
      if exists i :: 0 <= i < |ps[1..]| && m in ps[1..][i].remarks {
        var i :| 0 <= i < |ps[1..]| && m in ps[1..][i].remarks;
        assert ps[i + 1] == ps[1..][i];
      }
    }
  }

  /** `error_messages`: a loop over the failed packages extending the list with each one's
      non-empty remarks. */
  method ErrorMessages(r: CmuCreateResponse) returns (errors: seq<string>)
    ensures errors == FailedRemarks(r)
  {
    errors := [];
    var failed := FailedPackages(r);
    for i := 0 to |failed|
      invariant errors == RemarksOf(failed[..i])
    {
      RemarksOfAppend(failed[..i], [failed[i]]);
      assert failed[..i + 1] == failed[..i] + [failed[i]];
      errors := errors + Seqs.Filter(NonEmptyText, failed[i].remarks);
    }
    assert failed[..|failed|] == failed;
  }

  /** A message is reported exactly when it is a non-empty remark of some failed package: the
      remarks of successful packages never appear. */
  lemma FailedRemarksMembership(r: CmuCreateResponse, m: string)
    ensures m in FailedRemarks(r) <==>
            m != "" && exists i :: 0 <= i < |r.packages| && r.packages[i].status == PackageStatus.Fail && m in r.packages[i].remarks
  {
    var failed := FailedPackages(r);
    RemarksOfMembership(failed, m);
    if m in FailedRemarks(r) {
      var j :| 0 <= j < |failed| && m in failed[j].remarks;
      Seqs.FilterMembership(Failed, r.packages, failed[j]);
      var i :| 0 <= i < |r.packages| && r.packages[i] == failed[j];
    }
    if m != "" && exists i :: 0 <= i < |r.packages| && r.packages[i].status == PackageStatus.Fail && m in r.packages[i].remarks {
      var i :| 0 <= i < |r.packages| && r.packages[i].status == PackageStatus.Fail && m in r.packages[i].remarks;
      Seqs.FilterMembership(Failed, r.packages, r.packages[i]);
      var j :| 0 <= j < |failed| && failed[j] == r.packages[i];
    }
  }

  /** `needle` occurs somewhere in `hay`. */
  predicate Contains(hay: string, needle: string) {
    exists i :: 0 <= i <= |hay| && needle <= hay[i..]
  }

  lemma ContainsInContext(pre: string, hay: string, post: string, needle: string)
    requires Contains(hay, needle)
    ensures Contains(pre + hay + post, needle)
  {
    var i :| 0 <= i <= |hay| && needle <= hay[i..];
    var whole := pre + hay + post;
    assert whole[|pre| + i..] == hay[i..] + post;
  }

  lemma ContainsItself(s: string)
    ensures Contains(s, s)
  {
    assert s[0..] == s;
  }

  /** Python's `repr` of a string, single-quoted. */
  function Quote(s: string): string {
    "'" + s + "'"
  }

  /** The items of a list's `repr`, separated by ", ". */
  function ReprItems(items: seq<string>): string {
    if items == [] then ""
    else if |items| == 1 then Quote(items[0])
    else Quote(items[0]) + ", " + ReprItems(items[1..])
  }

  /** Every item occurs in the rendering of the items. */
  lemma {:induction false} ReprItemsContains(items: seq<string>)
    ensures forall k :: 0 <= k < |items| ==> Contains(ReprItems(items), items[k])
  {
    if items != [] {
      ContainsItself(items[0]);
      if |items| == 1 {
        ContainsInContext("'", items[0], "'", items[0]);
      } else {
        var rest := ReprItems(items[1..]);
        ReprItemsContains(items[1..]);
        ContainsInContext("'", items[0], "'" + ", " + rest, items[0]);
        assert "'" + items[0] + ("'" + ", " + rest) == ReprItems(items);
        forall k | 1 <= k < |items| ensures Contains(ReprItems(items), items[k]) {
          assert items[k] == items[1..][k - 1];
          ContainsAfter(Quote(items[0]) + ", ", rest, items[k]);
        }
      }
    }
  }

  /** Python's `repr` of a list of strings. */
  function ListRepr(items: seq<string>): (t: string)
    ensures |t| >= 2 && t[0] == '[' && t[|t| - 1] == ']'
    ensures forall k :: 0 <= k < |items| ==> Contains(t, items[k])
  {
    var inner := ReprItems(items);
    ReprItemsContains(items);
    forall k | 0 <= k < |items| ensures Contains("[" + inner + "]", items[k]) {
      ContainsInContext("[", inner, "]", items[k]);
    }
    "[" + inner + "]"
  }

  function FailurePrefix(uploadWbn: string): string {
    "Delhivery CMU order creation failed | upload_wbn=" + uploadWbn + " | errors="
  }

  /** What follows the prefix: the list of errors, or "Unknown error" when there is none. */
  function FailureDetail(errors: seq<string>): (d: string)
    ensures d == "Unknown error" <==> errors == []
    ensures forall k :: 0 <= k < |errors| ==> Contains(d, errors[k])
  {
    if errors == [] then "Unknown error"
    else
      var t := ListRepr(errors);
      assert t[0] != "Unknown error"[0];
      t
  }

  lemma ContainsAfter(pre: string, hay: string, needle: string)
    requires Contains(hay, needle)
    ensures Contains(pre + hay, needle)
  {
    ContainsInContext(pre, hay, "", needle);
    assert pre + hay + "" == pre + hay;
  }

  lemma PrefixNamesUpload(uploadWbn: string, detail: string)
    ensures Contains(FailurePrefix(uploadWbn) + detail, uploadWbn)
  {
    ContainsItself(uploadWbn);
    ContainsInContext("Delhivery CMU order creation failed | upload_wbn=", uploadWbn, " | errors=" + detail, uploadWbn);
    assert "Delhivery CMU order creation failed | upload_wbn=" + uploadWbn + (" | errors=" + detail)
        == FailurePrefix(uploadWbn) + detail;
  }

  /** The text of the raised HTTPError: the upload id, then the error list or "Unknown error"
      when there is none. */
  function FailureMessage(uploadWbn: string, errors: seq<string>): (m: string)
    ensures FailurePrefix(uploadWbn) <= m
    ensures m[|FailurePrefix(uploadWbn)|..] == "Unknown error" <==> errors == []
    ensures Contains(m, uploadWbn)
    ensures forall k :: 0 <= k < |errors| ==> Contains(m, errors[k])
  {
    var prefix := FailurePrefix(uploadWbn);
    var detail := FailureDetail(errors);
    assert (prefix + detail)[|prefix|..] == detail;
    PrefixNamesUpload(uploadWbn, detail);
    forall k | 0 <= k < |errors| ensures Contains(prefix + detail, errors[k]) {
      ContainsAfter(prefix, detail, errors[k]);
    }
    prefix + detail
  }

  /** `requests.exceptions.HTTPError` with its message. */
  datatype HttpError = HttpError(message: string)

  /** `raise_for_failure`: returns normally only for a fully successful upload. */
  function RaiseForFailure(r: CmuCreateResponse): (o: Outcome<HttpError>)
    ensures o.Pass? <==> r.success && forall i :: 0 <= i < |r.packages| ==> r.packages[i].status == Success
    ensures o.Fail? ==> o.error.message == FailureMessage(r.uploadWbn, FailedRemarks(r))
  {
    Seqs.FilterAll(Failed, r.packages);
    if r.success && FailedPackages(r) == [] then Pass
    else Outcome.Fail(HttpError(FailureMessage(r.uploadWbn, FailedRemarks(r))))
  }

  /** A failed package raises even though the top-level flag reports success, and the message
      names the upload and the package's non-empty remarks. */
  lemma FailedPackageOverridesSuccessFlag(r: CmuCreateResponse, i: nat)
    requires r.success && i < |r.packages| && r.packages[i].status == PackageStatus.Fail
    ensures RaiseForFailure(r).Fail?
    ensures forall m :: m in r.packages[i].remarks && m != "" ==> Contains(RaiseForFailure(r).error.message, m)
  {
    forall m | m in r.packages[i].remarks && m != "" ensures Contains(RaiseForFailure(r).error.message, m) {
      FailedRemarksMembership(r, m);
      var k :| 0 <= k < |FailedRemarks(r)| && FailedRemarks(r)[k] == m;
    }
  }

  /** An unsuccessful upload raises even when no package failed; having no remarks to report,
      the message ends in "Unknown error". */
  lemma UnsuccessfulWithoutFailures(r: CmuCreateResponse)
    requires !r.success && forall i :: 0 <= i < |r.packages| ==> r.packages[i].status == Success
    ensures RaiseForFailure(r).Fail?
    ensures var m := RaiseForFailure(r).error.message;
            m == FailurePrefix(r.uploadWbn) + "Unknown error"
  {
    Seqs.FilterAll(Failed, r.packages);
  }

  // ===========================================================================
  // CMU create request: the form payload
  // ===========================================================================

  datatype PaymentMode = Prepaid | Cod

  function PaymentModeName(m: PaymentMode): string {
    match m
    case Prepaid => "Prepaid"
    case Cod => "COD"
  }

  datatype ShippingMode = Surface | Express

  function ShippingModeName(m: ShippingMode): string {
    match m
    case Surface => "Surface"
    case Express => "Express"
  }

  /** `DelhiveryShipment`, fields in declaration order. */
  datatype Shipment = Shipment(
    name: string,
    add: string,
    pin: string,
    city: string,
    state: string,
    country: string,
    phone: string,
    order: string,
    paymentMode: PaymentMode,
    returnPin: Option<string>,
    returnCity: Option<string>,
    returnPhone: Option<string>,
    returnAdd: Option<string>,
    returnState: Option<string>,
    returnCountry: Option<string>,
    productsDesc: Option<string>,
    hsnCode: Option<string>,
    codAmount: Option<string>,
    orderDate: Option<string>,
    totalAmount: Option<string>,
    sellerAdd: Option<string>,
    sellerName: Option<string>,
    sellerInv: Option<string>,
    quantity: Option<string>,
    waybill: Option<string>,
    shipmentWidth: Option<string>,
    shipmentHeight: Option<string>,
    weight: Option<string>,
    shippingMode: ShippingMode,
    addressType: Option<string>)

  /** A shipment with only the required fields given: `country` "India", `order_date` None and
      every other optional field "". */
  function NewShipment(name: string, add: string, pin: string, city: string, state: string, phone: string,
                       order: string, paymentMode: PaymentMode, shippingMode: ShippingMode): Shipment
  {
    Shipment(name, add, pin, city, state, "India", phone, order, paymentMode,
             Some(""), Some(""), Some(""), Some(""), Some(""), Some(""),
             Some(""), Some(""), Some(""), None, Some(""),
             Some(""), Some(""), Some(""), Some(""), Some(""),
             Some(""), Some(""), Some(""), shippingMode, Some(""))
  }

  /** The declared field names, in declaration order. */
  const ShipmentKeys: seq<string> := [
    "name", "add", "pin", "city", "state", "country", "phone", "order", "payment_mode",
    "return_pin", "return_city", "return_phone", "return_add", "return_state", "return_country",
    "products_desc", "hsn_code", "cod_amount", "order_date", "total_amount",
    "seller_add", "seller_name", "seller_inv", "quantity", "waybill",
    "shipment_width", "shipment_height", "weight", "shipping_mode", "address_type"]

  /** The value of the field at position `i` of `ShipmentKeys`; None where it is unset. */
  function FieldValue(s: Shipment, i: nat): Option<string>
    requires i < |ShipmentKeys|
  {
    match i
    case 0 => Some(s.name)
    case 1 => Some(s.add)
    case 2 => Some(s.pin)
    case 3 => Some(s.city)
    case 4 => Some(s.state)
    case 5 => Some(s.country)
    case 6 => Some(s.phone)
    case 7 => Some(s.order)
    case 8 => Some(PaymentModeName(s.paymentMode))
    case 9 => s.returnPin
    case 10 => s.returnCity
    case 11 => s.returnPhone
    case 12 => s.returnAdd
    case 13 => s.returnState
    case 14 => s.returnCountry
    case 15 => s.productsDesc
    case 16 => s.hsnCode
    case 17 => s.codAmount
    case 18 => s.orderDate
    case 19 => s.totalAmount
    case 20 => s.sellerAdd
    case 21 => s.sellerName
    case 22 => s.sellerInv
    case 23 => s.quantity
    case 24 => s.waybill
    case 25 => s.shipmentWidth
    case 26 => s.shipmentHeight
    case 27 => s.weight
    case 28 => Some(ShippingModeName(s.shippingMode))
    case _ => s.addressType
  }

  /** Every field of `s` under its declared name, in declaration order. */
  function ShipmentFields(s: Shipment): (fs: seq<(string, Option<string>)>)
    ensures |fs| == |ShipmentKeys|
    ensures forall i :: 0 <= i < |fs| ==> fs[i] == (ShipmentKeys[i], FieldValue(s, i))
  {
    seq(|ShipmentKeys|, i requires 0 <= i < |ShipmentKeys| => (ShipmentKeys[i], FieldValue(s, i)))
  }

  /** `exclude_none=True`: the set fields as JSON members, in field order. */
  function ExcludeNone(fs: seq<(string, Option<string>)>): (ms: seq<(string, Json)>)
    ensures |ms| <= |fs|
    ensures forall m :: m in ms ==> m.1.JStr?
  {
    if fs == [] then []
    else DumpField(fs[0]) + ExcludeNone(fs[1..])
  }

  /** One field as a JSON member, or nothing when it is None. */
  function DumpField(f: (string, Option<string>)): (ms: seq<(string, Json)>)
    ensures |ms| <= 1
  {
    match f.1
    case Some(v) => [(f.0, JStr(v))]
    case None => []
  }

  lemma DumpFieldMembership(f: (string, Option<string>), key: string, v: string)
    ensures (key, JStr(v)) in DumpField(f) <==> f == (key, Some(v))
  {
  }

  /** A member is dumped exactly when it is a set field with that name and value. */
  lemma {:induction false} ExcludeNoneMembership(fs: seq<(string, Option<string>)>, key: string, v: string)
    ensures (key, JStr(v)) in ExcludeNone(fs) <==> (key, Some(v)) in fs
  {
    if fs != [] {
      ExcludeNoneMembership(fs[1..], key, v);
      DumpFieldMembership(fs[0], key, v);
      assert fs == [fs[0]] + fs[1..];
    }
  }

  /** Dumping keeps field order: the members of two runs of fields are those of the first run
      followed by those of the second. */
  lemma {:induction false} ExcludeNoneAppend(a: seq<(string, Option<string>)>, b: seq<(string, Option<string>)>)
    ensures ExcludeNone(a + b) == ExcludeNone(a) + ExcludeNone(b)
  {
    if a == [] {
      assert a + b == b;
    } else {
      assert (a + b)[1..] == a[1..] + b;
      ExcludeNoneAppend(a[1..], b);
    }
  }

  /** `model_dump(exclude_none=True)` of a shipment. */
  function DumpShipment(s: Shipment): (j: Json)
    ensures j.JObj? && |j.members| <= |ShipmentKeys|
    ensures forall m :: m in j.members ==> m.1.JStr?
  {
    JObj(ExcludeNone(ShipmentFields(s)))
  }

  /** A member appears in a dumped shipment exactly when it is a field that is set, with its
      value. */
  lemma DumpedMembers(s: Shipment, key: string, v: string)
    ensures (key, JStr(v)) in DumpShipment(s).members <==> (key, Some(v)) in ShipmentFields(s)
  {
    ExcludeNoneMembership(ShipmentFields(s), key, v);
  }

  /** A set field is dumped under its declared name. */
  lemma SetFieldDumped(s: Shipment, i: nat)
    requires i < |ShipmentKeys| && FieldValue(s, i).Some?
    ensures (ShipmentKeys[i], JStr(FieldValue(s, i).value)) in DumpShipment(s).members
  {
    var fs := ShipmentFields(s);
    assert fs[i] in fs;
    ExcludeNoneMembership(fs, ShipmentKeys[i], FieldValue(s, i).value);
  }

  /** The required fields always appear, with their values. */
  lemma RequiredFieldsDumped(s: Shipment)
    ensures ("name", JStr(s.name)) in DumpShipment(s).members
    ensures ("order", JStr(s.order)) in DumpShipment(s).members
    ensures ("payment_mode", JStr(PaymentModeName(s.paymentMode))) in DumpShipment(s).members
    ensures ("shipping_mode", JStr(ShippingModeName(s.shippingMode))) in DumpShipment(s).members
  {
    var fs := ShipmentFields(s);
    assert fs[0] == ("name", Some(s.name)) && fs[7] == ("order", Some(s.order));
    assert fs[8] == ("payment_mode", Some(PaymentModeName(s.paymentMode)));
    assert fs[28] == ("shipping_mode", Some(ShippingModeName(s.shippingMode)));
    ExcludeNoneMembership(fs, "name", s.name);
    ExcludeNoneMembership(fs, "order", s.order);
    ExcludeNoneMembership(fs, "payment_mode", PaymentModeName(s.paymentMode));
    ExcludeNoneMembership(fs, "shipping_mode", ShippingModeName(s.shippingMode));
  }

  /** `order_date` is the only field of that name. */
  lemma OrderDateKey(j: nat)
    requires j < |ShipmentKeys| && ShipmentKeys[j] == "order_date"
    ensures j == 18
  {
  }

  /** A shipment without an order date is dumped without an `order_date` key. */
  lemma OrderDateOmittedWhenNone(s: Shipment)
    requires s.orderDate.None?
    ensures forall m :: m in DumpShipment(s).members ==> m.0 != "order_date"
  {
    var fs := ShipmentFields(s);
    forall m | m in DumpShipment(s).members ensures m.0 != "order_date" {
      ExcludeNoneMembership(fs, m.0, m.1.s);
      var i :| 0 <= i < |fs| && fs[i] == (m.0, Some(m.1.s));
      if m.0 == "order_date" {
        OrderDateKey(i);
      }
    }
  }

  /** A shipment built from its required fields alone has every field set except `order_date`,
      and every optional field other than `order_date` set to "". */
  lemma NewShipmentFields(s: Shipment, i: nat)
    requires s == NewShipment(s.name, s.add, s.pin, s.city, s.state, s.phone, s.order, s.paymentMode, s.shippingMode)
    requires i < |ShipmentKeys|
    ensures FieldValue(s, i).Some? <==> i != 18
    ensures 9 <= i && i != 18 && i != 28 ==> FieldValue(s, i) == Some("")
  {
  }

  /** A shipment built from its required fields alone dumps every field but `order_date`. */
  lemma NewShipmentDumpSize(s: Shipment)
    requires s == NewShipment(s.name, s.add, s.pin, s.city, s.state, s.phone, s.order, s.paymentMode, s.shippingMode)
    ensures |DumpShipment(s).members| == |ShipmentKeys| - 1
  {
    var fs := ShipmentFields(s);
    assert fs == fs[..18] + ([fs[18]] + fs[19..]);
    ExcludeNoneAppend(fs[..18], [fs[18]] + fs[19..]);
    ExcludeNoneAppend([fs[18]], fs[19..]);
    forall i | 0 <= i < 18 ensures fs[..18][i].1.Some? {
      NewShipmentFields(s, i);
    }
    forall i | 0 <= i < |fs[19..]| ensures fs[19..][i].1.Some? {
      NewShipmentFields(s, i + 19);
    }
    NewShipmentFields(s, 18);
    ExcludeNoneAllSet(fs[..18]);
    ExcludeNoneAllSet(fs[19..]);
  }

  /** A shipment built from its required fields alone dumps the country "India" and every
      optional field except `order_date`, as "". */
  lemma NewShipmentDump(name: string, add: string, pin: string, city: string, state: string, phone: string,
                        order: string, paymentMode: PaymentMode, shippingMode: ShippingMode)
    ensures var s := NewShipment(name, add, pin, city, state, phone, order, paymentMode, shippingMode);
            && ("country", JStr("India")) in DumpShipment(s).members
            && (forall i :: 9 <= i < |ShipmentKeys| && i != 18 && i != 28 ==>
                  (ShipmentKeys[i], JStr("")) in DumpShipment(s).members)
            && (forall m :: m in DumpShipment(s).members ==> m.0 != "order_date")
            && |DumpShipment(s).members| == |ShipmentKeys| - 1
  {
    var s := NewShipment(name, add, pin, city, state, phone, order, paymentMode, shippingMode);
    SetFieldDumped(s, 5);
    forall i | 9 <= i < |ShipmentKeys| && i != 18 && i != 28
      ensures (ShipmentKeys[i], JStr("")) in DumpShipment(s).members
    {
      NewShipmentFields(s, i);
      SetFieldDumped(s, i);
    }
    OrderDateOmittedWhenNone(s);
    NewShipmentDumpSize(s);
  }

  lemma {:induction false} ExcludeNoneAllSet(fs: seq<(string, Option<string>)>)
    requires forall i :: 0 <= i < |fs| ==> fs[i].1.Some?
    ensures |ExcludeNone(fs)| == |fs|
  {
    if fs != [] {
      ExcludeNoneAllSet(fs[1..]);
    }
  }

  datatype PickupLocation = PickupLocation(name: string)

  datatype CmuCreateRequest = CmuCreateRequest(shipments: seq<Shipment>, pickupLocation: PickupLocation)

  /** The dumped shipments, in request order. */
  function DumpShipments(ss: seq<Shipment>): (js: seq<Json>)
    ensures |js| == |ss|
    ensures forall i :: 0 <= i < |ss| ==> js[i] == DumpShipment(ss[i])
  {
    seq(|ss|, i requires 0 <= i < |ss| => DumpShipment(ss[i]))
  }

  /** The `data` dict before serialisation: the shipments, then the pickup location. */
  function Document(req: CmuCreateRequest): (doc: Json)
    ensures doc.JObj? && |doc.members| == 2
    ensures doc.members[0].0 == "shipments" && doc.members[1].0 == "pickup_location"
    ensures doc.members[0].1.JArr? && |doc.members[0].1.items| == |req.shipments|
    ensures forall i :: 0 <= i < |req.shipments| ==> doc.members[0].1.items[i] == DumpShipment(req.shipments[i])
    ensures doc.members[1].1 == JObj([("name", JStr(req.pickupLocation.name))])
  {
    JObj([("shipments", JArr(DumpShipments(req.shipments))),
          ("pickup_location", JObj([("name", JStr(req.pickupLocation.name))]))])
  }

  /** `json.dumps`, whose text encoding is not part of this model. */
  type JsonDumps = Json -> string

  /** `build_payload`: the `data` dict is built, then rebound to the two form fields. */
  method BuildPayload(req: CmuCreateRequest, dumps: JsonDumps) returns (payload: map<string, string>)
    ensures payload.Keys == {"format", "data"}
    ensures payload["format"] == "json"
    ensures payload["data"] == dumps(Document(req))
  {
    var data := Document(req);
    payload := map["format" := "json", "data" := dumps(data)];
  }
}
