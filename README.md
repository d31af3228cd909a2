# pydelhivery schema layer in Dafny

This project models the schema layer of `pydelhivery`, a typed Python client for the Delhivery
courier API. The layer lives in `src/pydelhivery/models/` and is made of pydantic records. The
model covers the rules they enforce and the values they derive:

- **Validation.** Field constraints decide whether a request or response record can be built:
  - the 6-digit pincode range;
  - the `HH:MM:SS` and `YYYY-MM-DD` patterns;
  - minimum and exact string lengths, and `Literal` choices;
  - the closed pickup-success schema, which rejects extra keys.
- **Accessors.** Read-only values are derived from validated records:
  - tracking: first shipment, latest status, latest scan, delivered and RTO (return to origin);
  - pincode serviceability and its COD, prepaid and ODA flags;
  - packing-slip waybills and PDF links;
  - CMU order creation: successful waybills, failed packages and error messages. CMU is the
    courier's "create manifest upload" endpoint.
- **Builders.** The query-parameter builders and the order-creation form payload.
- **Hard failure.** `raise_for_failure` rejects a CMU response when the upload or any package
  failed.
- **Fee breakdown.** The XML fee breakdown is read with defaults for missing or blank children.

Modules:

| file | module | models |
|---|---|---|
| `wrappers.dfy` | `Wrappers` | `Option`, `Result` (an exception becomes `Err`), `Outcome` |
| `seqs.dfy` | `Seqs` | order-preserving filter: the `[x for x in xs if cond]` comprehensions that keep elements unchanged (the tracking shipment list, which also unwraps each element, has its own recursion) |
| `text.dfy` | `Text` | `str(int)` and its inverse, `",".join`/`split`, `str.strip()` with the exact `str.isspace` set |
| `schema.dfy` | `Schema` | decoded JSON values, pydantic-style field readers, error kinds, `extra` modes, fixed-width regex shapes |
| `shipping_create.dfy` | `ShippingCreate` | `ShippingCreateRequest.py` |
| `delhivery_models.dfy` | `DelhiveryModels` | `DelhiveryModels.py` |
| `tracking.dfy` | `Tracking` | `Tracking.py` |
| `shipping_cost.dfy` | `ShippingCost` | `ShippingCostModel.py` |
| `warehouse.dfy` | `WareHouse` | `WareHouseModels.py` |

How pydantic behaviour is represented:

- **Records.** A record built from keyword arguments is a `Parse…` function from a decoded JSON
  object (`map<string, Json>`) to `Result<Record, ValidationError>`.
- **Validation order and errors.** Every declared field is read in declaration order. All
  failing fields are reported together, one `FieldError` each. Under `extra="forbid"`, the
  undeclared keys are reported as a set. Where the Python code raises, the model returns `Err`.
- **Dict-building methods.** `error_messages`, both `build_params` and `build_payload` build or
  rebind a local dict or list, so they are methods. Every other accessor is a function.
- **Imported routines.** Python's `float()` (`ShippingCost.FloatParser`) and `json.dumps`
  (`ShippingCreate.JsonDumps`) are parameters.
- **XML input.** The XML document arrives already parsed, as a tree of
  `Element(tag, text, children)`.

## Model

| member | source | states |
|---|---|---|
| `ShippingCreate.Pincode` | src/pydelhivery/models/ShippingCreateRequest.py:16-25 | the `int`-or-`str` union accepts exactly ints and strings; a string is stored unchanged, an int as decimal text that parses back to the same int |
| `ShippingCreate.ParseAddressData` | src/pydelhivery/models/ShippingCreateRequest.py:12-25 | an address is accepted iff `firstName` and `lastName` are strings of length at least 1, the street comes from the key `add` and city/state/phone are strings; each field holds its input, the pincode as text |
| `ShippingCreate.IntPincodeStoredAsText` | src/pydelhivery/models/ShippingCreateRequest.py:21-25 | an int pincode is stored as its decimal rendering, all digits when non-negative |
| `ShippingCreate.FullNameParts` | src/pydelhivery/models/ShippingCreateRequest.py:27-29 | the full name splits at the space back into first and last name (when neither contains a space); for non-empty names it is at least 3 characters, first name, one space, last name |
| `ShippingCreate.FullName` | src/pydelhivery/models/ShippingCreateRequest.py:27-29 | the full name is the first name, one space, then the last name, with the lengths adding up |
| `Text.IntToStringRoundTrip` | src/pydelhivery/models/ShippingCreateRequest.py:21-25 | `str(v)` of an int is read back as the same int |
| `ShippingCreate.WaybillsMembership` | src/pydelhivery/models/ShippingCreateRequest.py:67-69 | a waybill is listed iff some package with status "Success" carries it |
| `ShippingCreate.Waybills` | src/pydelhivery/models/ShippingCreateRequest.py:67-69 | there are no more waybills than packages |
| `ShippingCreate.PackagesKeepOrder` | src/pydelhivery/models/ShippingCreateRequest.py:67-73 | waybills and failed packages keep package order (listing over concatenated batches is the concatenation) |
| `ShippingCreate.FailedPackages` | src/pydelhivery/models/ShippingCreateRequest.py:71-73 | every failed package has status Fail, and there are no more of them than packages |
| `ShippingCreate.PackagesPartition` | src/pydelhivery/models/ShippingCreateRequest.py:67-73 | successful and failed packages together are a permutation of the packages (multisets and counts add up); a package is failed iff it is present with status Fail |
| `ShippingCreate.RemarksOfAppend` | src/pydelhivery/models/ShippingCreateRequest.py:77-80 | the collected remarks of two runs of packages are those of the first run followed by those of the second |
| `ShippingCreate.RemarksOfMembership` | src/pydelhivery/models/ShippingCreateRequest.py:77-80 | a string is collected iff it is non-empty and is a remark of one of the packages |
| `ShippingCreate.ErrorMessages` | src/pydelhivery/models/ShippingCreateRequest.py:75-80 | the loop extending the list with each failed package's non-empty remarks yields exactly `FailedRemarks` |
| `ShippingCreate.FailedRemarks` | src/pydelhivery/models/ShippingCreateRequest.py:75-80 | every error message is non-empty, and there is none when every package succeeded |
| `ShippingCreate.FailedRemarksMembership` | src/pydelhivery/models/ShippingCreateRequest.py:71-80 | a message is reported iff it is a non-empty remark of a package whose status is Fail; remarks of successful packages never appear |
| `ShippingCreate.ListRepr` | src/pydelhivery/models/ShippingCreateRequest.py:98 | the list rendering is bracketed and contains every error message |
| `ShippingCreate.FailureDetail` | src/pydelhivery/models/ShippingCreateRequest.py:98 | the part after `errors=` is "Unknown error" iff there are no error messages, and otherwise contains every one of them |
| `ShippingCreate.FailureMessage` | src/pydelhivery/models/ShippingCreateRequest.py:95-99 | the message starts with the fixed prefix and `upload_wbn`, mentions `upload_wbn` and every error message, and its tail is "Unknown error" iff there are no error messages |
| `ShippingCreate.RaiseForFailure` | src/pydelhivery/models/ShippingCreateRequest.py:86-105 | returns normally iff `success` is true and every package has status "Success"; otherwise fails with the failure message of the upload id and the error messages |
| `ShippingCreate.FailedPackageOverridesSuccessFlag` | src/pydelhivery/models/ShippingCreateRequest.py:92-105 | one failed package forces the failure even when `success` is true, and each of its non-empty remarks appears in the message |
| `ShippingCreate.UnsuccessfulWithoutFailures` | src/pydelhivery/models/ShippingCreateRequest.py:92-99 | `success=false` forces the failure with no failed package, and the message ends in "Unknown error" |
| `ShippingCreate.ExcludeNoneMembership` | src/pydelhivery/models/ShippingCreateRequest.py:162-163 | `exclude_none`: a member is dumped iff it is a set field with that name and value |
| `ShippingCreate.ExcludeNoneAppend` | src/pydelhivery/models/ShippingCreateRequest.py:162-163 | dumping keeps field order |
| `ShippingCreate.DumpedMembers` | src/pydelhivery/models/ShippingCreateRequest.py:108-145 | a member appears in a dumped shipment iff it is a declared field that is set, with its value |
| `ShippingCreate.DumpShipment` | src/pydelhivery/models/ShippingCreateRequest.py:162 | the dump is a JSON object of string members, no more than the 30 declared fields |
| `ShippingCreate.SetFieldDumped` | src/pydelhivery/models/ShippingCreateRequest.py:108-145 | every set field is dumped under its declared name |
| `ShippingCreate.RequiredFieldsDumped` | src/pydelhivery/models/ShippingCreateRequest.py:109-144 | `name`, `order`, `payment_mode` and `shipping_mode` always appear with their values |
| `ShippingCreate.OrderDateOmittedWhenNone` | src/pydelhivery/models/ShippingCreateRequest.py:130 | a shipment whose `order_date` is None has no `order_date` key in its dump |
| `ShippingCreate.NewShipmentDump` | src/pydelhivery/models/ShippingCreateRequest.py:114-145 | with only required fields given, the dump holds `country` "India", every optional field other than `order_date` (`return_pin` through `address_type`) as "", no `order_date`, 29 members |
| `ShippingCreate.DumpShipments` | src/pydelhivery/models/ShippingCreateRequest.py:162 | shipments are dumped one for one, in request order |
| `ShippingCreate.Document` | src/pydelhivery/models/ShippingCreateRequest.py:161-164 | the data document has exactly `shipments` (each shipment's dump, in order) then `pickup_location` (its name) |
| `ShippingCreate.BuildPayload` | src/pydelhivery/models/ShippingCreateRequest.py:156-171 | the payload has exactly the keys `format` ↦ "json" and `data` ↦ the serialised document |
| `DelhiveryModels.ValidatePin` | src/pydelhivery/models/DelhiveryModels.py:20-25 | a pincode passes iff 100000 ≤ v ≤ 999999, else the field fails with the "valid 6-digit number" message |
| `DelhiveryModels.ValidPinIsSixDigits` | src/pydelhivery/models/DelhiveryModels.py:20-25 | the range is exactly the non-negative ints whose decimal form has six digits |
| `DelhiveryModels.ParseShippingCostRequest` | src/pydelhivery/models/DelhiveryModels.py:10-25 | accepted iff `md`, `ss`, `pt` are among their literals, `cgm` ≥ 0 and both pins are in range; the record holds the inputs; otherwise at least one field error |
| `DelhiveryModels.PincodeScenario` | src/pydelhivery/models/DelhiveryModels.py:20-25 | `o_pin=99999` is refused, `o_pin=560001` accepted |
| `DelhiveryModels.TimeShapeIsClockText` | src/pydelhivery/models/DelhiveryModels.py:66-71 | the time pattern accepts exactly zero-padded `HH:MM:SS` renderings of numbers below 100 |
| `DelhiveryModels.DateShapeIsCalendarText` | src/pydelhivery/models/DelhiveryModels.py:72-77 | the date pattern accepts exactly zero-padded `YYYY-MM-DD` renderings |
| `DelhiveryModels.PickupTime` | src/pydelhivery/models/DelhiveryModels.py:66-71 | the field is accepted iff it is a string matching the time pattern |
| `DelhiveryModels.PickupDate` | src/pydelhivery/models/DelhiveryModels.py:72-77 | the field is accepted iff it is a string matching the date pattern |
| `DelhiveryModels.ParsePickupRequest` | src/pydelhivery/models/DelhiveryModels.py:65-86 | accepted iff time and date match their patterns, the location is a string and the package count is ≥ 1 |
| `DelhiveryModels.ParsePickupSuccessResponse` | src/pydelhivery/models/DelhiveryModels.py:89-99 | accepted iff the keys are exactly the seven declared fields with their types and patterns; a refusal lists exactly the undeclared keys |
| `DelhiveryModels.ExtraKeyRejected` | src/pydelhivery/models/DelhiveryModels.py:98-99 | any undeclared key rejects the payload and is named in the error |
| `DelhiveryModels.PickupSuccessScenario` | src/pydelhivery/models/DelhiveryModels.py:89-99 | the documented response parses; with one extra key it does not |
| `DelhiveryModels.BuildPackingSlipParams` | src/pydelhivery/models/DelhiveryModels.py:116-128 | keys are `wbns`, plus `pdf` iff the flag is set ("true"/"false"), plus `pdf_size` iff a size is set; reading the params back gives the request |
| `DelhiveryModels.DefaultPackingSlipParams` | src/pydelhivery/models/DelhiveryModels.py:104-128 | the default request sends `wbns` and `pdf=false` only |
| `DelhiveryModels.SlipWaybills` | src/pydelhivery/models/DelhiveryModels.py:143-145 | one waybill per package, same order |
| `DelhiveryModels.PdfLinks` | src/pydelhivery/models/DelhiveryModels.py:147-149 | every listed link is non-empty, no more links than packages |
| `DelhiveryModels.PdfLinksMembership` | src/pydelhivery/models/DelhiveryModels.py:147-149 | a link is listed iff it is non-empty and some package carries it |
| `DelhiveryModels.PdfLinksAppend` | src/pydelhivery/models/DelhiveryModels.py:147-149 | links keep package order |
| `DelhiveryModels.FirstPdfLink` | src/pydelhivery/models/DelhiveryModels.py:151-153 | None iff there are no links, else the first link |
| `DelhiveryModels.FirstPdfLinkIsEarliest` | src/pydelhivery/models/DelhiveryModels.py:147-153 | the first link exists iff some package has a truthy link, and belongs to the earliest such package |
| `DelhiveryModels.BuildTrackingParams` | src/pydelhivery/models/DelhiveryModels.py:156-168 | as written: fails iff `ref_ids` is set and `waybills` is None; `waybill` present iff waybills non-empty, as their ","-join (splitting gives them back); `ref_ids` present iff set, holding the join of the waybills |
| `DelhiveryModels.RefIdsDefectWitness` | src/pydelhivery/models/DelhiveryModels.py:166-167 | waybills W1, W2 with ref id R7 send `ref_ids=W1,W2`, not R7 |
| `DelhiveryModels.DefaultTrackingRequestFails` | src/pydelhivery/models/DelhiveryModels.py:157-167 | the default request (`waybills=None`, `ref_ids=""`) fails on the join |
| `DelhiveryModels.BuildTrackingParamsFixed` | src/pydelhivery/models/DelhiveryModels.py:160-168 | corrected: never fails; `waybill` as before; `ref_ids` present iff set, holding the request's own ref ids |
| `DelhiveryModels.ParsePackageEditRequest` | src/pydelhivery/models/DelhiveryModels.py:171-176 | accepted iff the waybill is a string of length ≥ 8 and `cancellation`, when given, is "true" or "false"; it defaults to "true" |
| `DelhiveryModels.FirstPostalCode` | src/pydelhivery/models/DelhiveryModels.py:238-242 | present iff serviceable (delivery codes non-empty), then the first entry's postal code |
| `DelhiveryModels.IsServiceable` | src/pydelhivery/models/DelhiveryModels.py:233-235 | serviceable iff the response holds some delivery-code entry |
| `DelhiveryModels.SupportsCod` | src/pydelhivery/models/DelhiveryModels.py:244-247 | true iff there is a first entry and its `cod` is exactly "Y" |
| `DelhiveryModels.SupportsPrepaid` | src/pydelhivery/models/DelhiveryModels.py:249-252 | true iff there is a first entry and its `pre_paid` is exactly "Y" |
| `DelhiveryModels.IsOda` | src/pydelhivery/models/DelhiveryModels.py:254-257 | true iff there is a first entry and its `is_oda` is exactly "Y" |
| `DelhiveryModels.FlagsNeedService` | src/pydelhivery/models/DelhiveryModels.py:234-257 | any flag implies serviceability; without delivery codes all flags are false |
| `DelhiveryModels.OnlyFirstEntryRead` | src/pydelhivery/models/DelhiveryModels.py:238-257 | entries after the first change no accessor |
| `DelhiveryModels.ParseShipmentConfig` | src/pydelhivery/models/DelhiveryModels.py:260-271 | accepted iff modes are among their literals, width and height > 0 and the warehouse is non-empty; defaults Prepaid, Surface, 100, 100 |
| `DelhiveryModels.ShipmentConfigDefaults` | src/pydelhivery/models/DelhiveryModels.py:260-271 | a warehouse name alone gives the default configuration |
| `Text.SplitJoin` | src/pydelhivery/models/DelhiveryModels.py:164 | splitting a ","-join gives the parts back when none contains a comma |
| `Tracking.Shipments` | src/pydelhivery/models/Tracking.py:119-125 | no more shipments than wrappers |
| `Tracking.ShipmentsMembership` | src/pydelhivery/models/Tracking.py:119-125 | a tracker is listed iff some wrapper holds it |
| `Tracking.ShipmentsAppend` | src/pydelhivery/models/Tracking.py:119-125 | the listing keeps wrapper order |
| `Tracking.ShipmentsComplete` | src/pydelhivery/models/Tracking.py:119-125 | the listing is as long as the wrappers iff no wrapper lacks a shipment |
| `Tracking.FirstShipment` | src/pydelhivery/models/Tracking.py:127-130 | None iff there are no shipments, else the first one |
| `Tracking.FirstShipmentIsEarliest` | src/pydelhivery/models/Tracking.py:127-130 | the first shipment is that of the earliest wrapper holding one; leading empty wrappers are skipped |
| `Tracking.LatestStatus` | src/pydelhivery/models/Tracking.py:132-137 | the first shipment's `Status.Status`; None without a first shipment or a status |
| `Tracking.LatestStatusLocation` | src/pydelhivery/models/Tracking.py:139-144 | the first shipment's `Status.StatusLocation`; None under the same conditions |
| `Tracking.LatestScan` | src/pydelhivery/models/Tracking.py:146-151 | the `ScanDetail` of the first shipment's last scan; None without a first shipment or scans |
| `Tracking.DeliveredReadsEarliestStatus` | src/pydelhivery/models/Tracking.py:153-155 | delivered iff the earliest wrapper holding a shipment has a status whose text is exactly "Delivered" |
| `Tracking.IsDelivered` | src/pydelhivery/models/Tracking.py:153-155 | delivered iff there is a first shipment, it has a status, and that status's text is exactly "Delivered" |
| `Tracking.RtoReadsEarliestShipment` | src/pydelhivery/models/Tracking.py:157-160 | RTO iff the earliest wrapper holding a shipment has a non-empty RTO start date |
| `Tracking.IsRto` | src/pydelhivery/models/Tracking.py:157-160 | RTO iff there is a first shipment whose RTO start date is present and non-empty |
| `Tracking.NothingToTrack` | src/pydelhivery/models/Tracking.py:112-160 | without any shipment every accessor yields an empty list, None or false |
| `Tracking.StatusNeedsShipment` | src/pydelhivery/models/Tracking.py:153-160 | delivered or RTO implies a first shipment |
| `Tracking.DeliveredScenario` | src/pydelhivery/models/Tracking.py:153-160 | one shipment with status "Delivered" and no RTO date is delivered and not RTO |
| `ShippingCost.FindIsFirst` | src/pydelhivery/models/ShippingCostModel.py:7 | `find` gives the earliest direct child with the tag, None iff there is none |
| `ShippingCost.Find` | src/pydelhivery/models/ShippingCostModel.py:7 | a found element is a direct child with the tag |
| `ShippingCost.BlankIsAllSpace` | src/pydelhivery/models/ShippingCostModel.py:8 | the blank test holds iff the child is missing, has no text or only whitespace |
| `Text.StripEmpty` | src/pydelhivery/models/ShippingCostModel.py:8 | `strip()` gives "" iff the text is all whitespace |
| `Text.StripIsTrimmedSlice` | src/pydelhivery/models/ShippingCostModel.py:17 | `strip()` is the slice left after cutting whitespace at both ends; it starts and ends with a non-space |
| `ShippingCost.GetFloat` | src/pydelhivery/models/ShippingCostModel.py:6-10 | 0.0 for a missing child, no text or whitespace-only text; otherwise `float()` of the text, or its error |
| `ShippingCost.GetText` | src/pydelhivery/models/ShippingCostModel.py:13-17 | None in the same three cases; otherwise the text with surrounding whitespace cut off, non-empty |
| `ShippingCost.TaxFromXml` | src/pydelhivery/models/ShippingCostModel.py:28-40 | no tax element gives the all-zero record; otherwise it reads iff all six taxes read, each from the child of its name, and a failure is the error of the first tax in declaration order that does not read |
| `ShippingCost.EmptyTaxElementIsZero` | src/pydelhivery/models/ShippingCostModel.py:28-40 | a tax element without children reads as all zero |
| `ShippingCost.ReadFloatsPointwise` | src/pydelhivery/models/ShippingCostModel.py:93-130 | reading charges in order succeeds iff every charge reads, each value from its own tag; otherwise the error is the first failing tag's |
| `ShippingCost.ReadFloatsChildless` | src/pydelhivery/models/ShippingCostModel.py:93-130 | every charge read from an element without children is 0.0, whatever the float reader |
| `ShippingCost.ReadFloatsAppend` | src/pydelhivery/models/ShippingCostModel.py:93-130 | the charges before `tax_data` followed by those after it are the charges of all tags in declaration order |
| `ShippingCost.ChargeItemParts` | src/pydelhivery/models/ShippingCostModel.py:92-131 | a record that reads consists of the charges before and after `tax_data`, the tax record read from `tax_data` and the five optional texts |
| `ShippingCost.ChargeItemFromElement` | src/pydelhivery/models/ShippingCostModel.py:92-131 | a record that reads carries the tax record read from `tax_data` and the `zone` and `status` texts of its own children |
| `ShippingCost.ChargesFromOwnTags` | src/pydelhivery/models/ShippingCostModel.py:93-130 | each charge of a record that reads is the float the reader gives for the child of the same tag |
| `ShippingCost.ChargeItemFromXml` | src/pydelhivery/models/ShippingCostModel.py:85-131 | without a direct `list-item` child the result is the "list-item not found" error |
| `ShippingCost.ChargeItemOkIff` | src/pydelhivery/models/ShippingCostModel.py:85-131 | a document reads iff it has a `list-item` whose charges and tax all read |
| `ShippingCost.FieldsReadFromSameTag` | src/pydelhivery/models/ShippingCostModel.py:92-131 | each field of the record is what the reader gives for the child of the same tag; tax from the nested `tax_data` |
| `ShippingCost.MinimalDocument` | src/pydelhivery/models/ShippingCostModel.py:43-131 | a `list-item` without children gives the default record: charges 0, texts None, tax zero |
| `ShippingCost.FirstListItemOnly` | src/pydelhivery/models/ShippingCostModel.py:88 | children after the first `list-item` change nothing |
| `WareHouse.ExactLength` | src/pydelhivery/models/WareHouseModels.py:14 | a string passes iff its length is exactly n; too short and too long are reported as such |
| `WareHouse.ParseWarehouseCreateRequest` | src/pydelhivery/models/WareHouseModels.py:8-30 | accepted iff the seven required texts are present, `pin` and `return_pin` have length 6, `phone` length 10 and `email` is a string; both countries default to "India" |
| `WareHouse.WrongPinLengthReported` | src/pydelhivery/models/WareHouseModels.py:14-29 | a pincode of the wrong length rejects the request with a too-short or too-long error on that field |
| `WareHouse.CountriesDefaultToIndia` | src/pydelhivery/models/WareHouseModels.py:21-30 | omitted countries become "India" |
| `WareHouse.ParseWarehouseUpdateRequest` | src/pydelhivery/models/WareHouseModels.py:33-36 | accepted iff `name`, `phone` and `address` are strings, with no length constraint |
| `WareHouse.UpdateHasNoLengthLimits` | src/pydelhivery/models/WareHouseModels.py:16-36 | giving an accepted registration a phone of the wrong length makes it fail with exactly one error, too short or too long on `phone`, while the same payload is a valid update |

## Left out

- `src/pydelhivery/DelhiveryApis.py`: HTTP requests, token loading and logging are I/O and not modelled. Its decisions are listed here; only two of them rest on modelled members:
  - the missing-token `ValueError` raised before every request reads `self.auth_token`, which is environment state;
  - `check_pincode_serviceability` defaults `filter_codes` to the pincode from its own arguments;
  - `_parse_response` turns any failure to decode JSON, or to validate the payload, into an `HTTPError`; decoding and the pydantic validation of the responses are not modelled;
  - `generate_shipping_label` raises when `packages_found == 0`, a plain field of `DelhiveryModels.PackingSlipResponse` rather than a derived accessor;
  - `check_pincode_serviceability` raises "Pincode not serviceable" when `is_serviceable` is false. This rests on `DelhiveryModels.IsServiceable`;
  - `create_order` calls `raise_for_failure`. This rests on `ShippingCreate.RaiseForFailure`.
- `src/pydelhivery/utils/logger.py` and the `logger.debug` call in `build_payload`: logging only.
- JSON decoding of responses: the accessor-only responses are plain datatypes. These are the CMU create, tracking, pincode and packing-slip responses.
- `DelhiveryOrderItem`, `DelhiveryOrderUpdateRequest` and `DelhiveryPackageEditResponse`: declarative records outside the modelled core. Their required fields and `Literal` modes are validated by pydantic alone, and nothing modelled here reads them.
- The `response` attachment of the `HTTPError` raised by `raise_for_failure`: it is a transport object.
- `ShippingCreate.ListRepr`: quotes each message in single quotes without Python's escaping. Messages that contain quotes, backslashes or non-printable characters are rendered differently from `repr`.
- `ShippingCreate.BuildPayload`: `json.dumps` is the parameter `dumps`. Its text encoding is not modelled; the document it serialises is.
- `ShippingCost.GetFloat`: Python's `float()` is the parameter `parse`, with no floating-point arithmetic. The XML text parsing of `ET.fromstring` is not modelled; the tree arrives parsed.
- `WareHouse.ParseWarehouseCreateRequest`: accepts any string as `email`, because `EmailStr` validation is an external library.
- Regex patterns: `\d` is modelled as an ASCII digit. Python's `re` and Rust's regex also accept other Unicode decimal digits.
- Lax coercions: strings of digits are not accepted as ints, and bools and floats are not coerced. Only JSON ints pass `int` fields and only JSON strings pass `str` fields.
- Extra keys under `extra="forbid"` are reported as a set, not as one error each in payload order.
- `DelhiveryCMUPackage.sort_code` is declared twice; the model keeps only the later `Optional[str] = None` declaration, which is the one Python retains.

Two behaviours of the code that the model follows closely:

- `error_messages` collects only the non-empty remarks, and only those of failed packages (`ShippingCreate.FailedRemarksMembership`).
- In the fee breakdown, whitespace-only text counts as blank, like a missing child or a child without text (`ShippingCost.BlankIsAllSpace`).

## Findings

| source | as written | input that shows it | evidently intended | confidence | as-written member | corrected member |
|---|---|---|---|---|---|---|
| src/pydelhivery/models/DelhiveryModels.py:166-167 | `ref_ids` is filled with `",".join(self.waybills)` | `waybills=["W1","W2"], ref_ids="R7"` sends `ref_ids=W1,W2`; the default request (`waybills=None`, `ref_ids=""`) raises TypeError on the join | `params["ref_ids"] = self.ref_ids` | high, not executed | `DelhiveryModels.BuildTrackingParams`, `DelhiveryModels.RefIdsDefectWitness`, `DelhiveryModels.DefaultTrackingRequestFails` | `DelhiveryModels.BuildTrackingParamsFixed` |
