/** Warehouse (pickup location) registration and update requests
    (src/pydelhivery/models/WareHouseModels.py): required fields, exact-length pincodes and
    phone number, and the "India" country defaults. */
module WareHouse {
  import opened Wrappers
  import opened Schema

  /** `min_length=n, max_length=n`: the minimum is checked first, then the maximum. */
  function ExactLength(r: Result<string, FieldError>, key: string, n: nat): (c: Result<string, FieldError>)
    ensures c.Ok? <==> r.Ok? && |r.value| == n
    ensures c.Ok? ==> c.value == r.value
    ensures r.Ok? && |r.value| < n ==> c == Err(FieldError(key, StringTooShort(n)))
    ensures r.Ok? && |r.value| > n ==> c == Err(FieldError(key, StringTooLong(n)))
    ensures r.Err? ==> c == r
  {
    var atLeast := Constrain(r, key, (s: string) => |s| >= n, StringTooShort(n));
    Constrain(atLeast, key, (s: string) => |s| <= n, StringTooLong(n))
  }

  /** A text field of the payload holding exactly `n` characters. */
  predicate HasLength(p: Payload, key: string, n: nat) {
    key in p && p[key].JStr? && |p[key].s| == n
  }

  predicate HasText(p: Payload, key: string) {
    key in p && p[key].JStr?
  }

  /** `DelhiveryWarehouseCreateRequest`. */
  datatype WarehouseCreateRequest = WarehouseCreateRequest(
    name: string,
    registeredName: string,
    address: string,
    city: string,
    pin: string,
    phone: string,
    email: string,
    country: string,
    returnAddress: string,
    returnCity: string,
    returnState: string,
    returnPin: string,
    returnCountry: string)

  function ParseWarehouseCreateRequest(p: Payload): (r: Result<WarehouseCreateRequest, ValidationError>)
    ensures r.Ok? <==>
      && HasText(p, "name") && HasText(p, "registered_name") && HasText(p, "address") && HasText(p, "city")
      && HasLength(p, "pin", 6) && HasLength(p, "phone", 10) && HasText(p, "email")
      && ("country" in p ==> p["country"].JStr?)
      && HasText(p, "return_address") && HasText(p, "return_city") && HasText(p, "return_state")
      && HasLength(p, "return_pin", 6)
      && ("return_country" in p ==> p["return_country"].JStr?)
    ensures r.Ok? ==> r.value == WarehouseCreateRequest(
              p["name"].s, p["registered_name"].s, p["address"].s, p["city"].s, p["pin"].s, p["phone"].s,
              p["email"].s, if "country" in p then p["country"].s else "India",
              p["return_address"].s, p["return_city"].s, p["return_state"].s, p["return_pin"].s,
              if "return_country" in p then p["return_country"].s else "India")
    ensures r.Err? ==> r.error.fieldErrors != [] && r.error.extras == {}
  {
    var name := Str(p, "name");
    var registeredName := Str(p, "registered_name");
    var address := Str(p, "address");
    var city := Str(p, "city");
    var pin := ExactLength(Str(p, "pin"), "pin", 6);
    var phone := ExactLength(Str(p, "phone"), "phone", 10);
    var email := Str(p, "email");
    var country := StrOr(p, "country", "India");
    var returnAddress := Str(p, "return_address");
    var returnCity := Str(p, "return_city");
    var returnState := Str(p, "return_state");
    var returnPin := ExactLength(Str(p, "return_pin"), "return_pin", 6);
    var returnCountry := StrOr(p, "return_country", "India");
    if && name.Ok? && registeredName.Ok? && address.Ok? && city.Ok? && pin.Ok? && phone.Ok? && email.Ok?
       && country.Ok? && returnAddress.Ok? && returnCity.Ok? && returnState.Ok? && returnPin.Ok?
       && returnCountry.Ok?
    then
      Ok(WarehouseCreateRequest(name.value, registeredName.value, address.value, city.value, pin.value,
                                phone.value, email.value, country.value, returnAddress.value,
                                returnCity.value, returnState.value, returnPin.value, returnCountry.value))
    else
      Err(ValidationError(
            Errors(name) + Errors(registeredName) + Errors(address) + Errors(city) + Errors(pin)
            + Errors(phone) + Errors(email) + Errors(country) + Errors(returnAddress) + Errors(returnCity)
            + Errors(returnState) + Errors(returnPin) + Errors(returnCountry),
            {}))
  }

  /** A pincode of the wrong length is reported against its own field, as too short or too long. */
  lemma WrongPinLengthReported(p: Payload, key: string)
    requires key in {"pin", "return_pin"} && key in p && p[key].JStr? && |p[key].s| != 6
    ensures ParseWarehouseCreateRequest(p).Err?
    ensures |p[key].s| < 6 ==> FieldError(key, StringTooShort(6)) in ParseWarehouseCreateRequest(p).error.fieldErrors
    ensures |p[key].s| > 6 ==> FieldError(key, StringTooLong(6)) in ParseWarehouseCreateRequest(p).error.fieldErrors
  {
  }

  /** A complete registration that leaves out both countries is accepted with "India" for both. */
  lemma CountriesDefaultToIndia(p: Payload)
    requires ParseWarehouseCreateRequest(p).Ok?
    requires "country" !in p && "return_country" !in p
    ensures ParseWarehouseCreateRequest(p).value.country == "India"
    ensures ParseWarehouseCreateRequest(p).value.returnCountry == "India"
  {
  }

  /** `DelhiveryWarehouseUpdateRequest`. */
  datatype WarehouseUpdateRequest = WarehouseUpdateRequest(name: string, phone: string, address: string)

  function ParseWarehouseUpdateRequest(p: Payload): (r: Result<WarehouseUpdateRequest, ValidationError>)
    ensures r.Ok? <==> HasText(p, "name") && HasText(p, "phone") && HasText(p, "address")
    ensures r.Ok? ==> r.value == WarehouseUpdateRequest(p["name"].s, p["phone"].s, p["address"].s)
    ensures r.Err? ==> r.error.fieldErrors != [] && r.error.extras == {}
  {
    var name := Str(p, "name");
    var phone := Str(p, "phone");
    var address := Str(p, "address");
    if name.Ok? && phone.Ok? && address.Ok? then
      Ok(WarehouseUpdateRequest(name.value, phone.value, address.value))
    else
      Err(ValidationError(Errors(name) + Errors(phone) + Errors(address), {}))
  }

  /** An update carries no length constraint: taking a registration that is accepted and
      giving it a phone number of the wrong length makes the registration fail on `phone` alone,
      too short or too long, while the same payload is a valid update. */
  lemma UpdateHasNoLengthLimits(p: Payload, phone: string)
    requires ParseWarehouseCreateRequest(p).Ok? && |phone| != 10
    ensures var q := p["phone" := JStr(phone)];
            && ParseWarehouseCreateRequest(q).Err?
            && (|phone| < 10 ==> ParseWarehouseCreateRequest(q).error.fieldErrors == [FieldError("phone", StringTooShort(10))])
            && (|phone| > 10 ==> ParseWarehouseCreateRequest(q).error.fieldErrors == [FieldError("phone", StringTooLong(10))])
            && ParseWarehouseUpdateRequest(q) == Ok(WarehouseUpdateRequest(p["name"].s, phone, p["address"].s))
  {
  }
}
