/** The fee-quote reply (src/pydelhivery/models/ShippingCostModel.py): an XML document whose
    first `<list-item>` holds one named child per charge. The document arrives here already
    parsed, as a tree of elements; Python's `float()` is the parameter `parse`, which returns
    None where `float()` raises. */
module ShippingCost {
  import opened Wrappers
  import Text

  /** An XML element: its tag, the text before its first child (None when there is none), and
      its child elements in document order. */
  datatype Element = Element(tag: string, text: Option<string>, children: seq<Element>)

  /** `float()` on a text, None where Python raises ValueError. */
  type FloatParser = string -> Option<real>

  datatype CostError =
    | ListItemNotFound                         // "Invalid XML: <list-item> not found"
    | FloatConversion(tag: string, text: string)   // float() refused the child's text

  function FindIn(cs: seq<Element>, tag: string): (r: Option<Element>)
    ensures r.Some? ==> r.value in cs && r.value.tag == tag
  {
    if cs == [] then None
    else if cs[0].tag == tag then Some(cs[0])
    else FindIn(cs[1..], tag)
  }

  /** `parent.find(tag)`: the first direct child with that tag. */
  function Find(parent: Element, tag: string): (r: Option<Element>)
    ensures r.Some? ==> r.value in parent.children && r.value.tag == tag
  {
    FindIn(parent.children, tag)
  }

  lemma {:induction false} FindInIsFirst(cs: seq<Element>, tag: string)
    ensures FindIn(cs, tag).None? <==> forall i :: 0 <= i < |cs| ==> cs[i].tag != tag
    ensures FindIn(cs, tag).Some? ==>
            exists i :: 0 <= i < |cs| && cs[i] == FindIn(cs, tag).value
                        && forall j :: 0 <= j < i ==> cs[j].tag != tag
  {
    if cs != [] {
      FindInIsFirst(cs[1..], tag);
      assert forall i :: 1 <= i < |cs| ==> cs[i] == cs[1..][i - 1];
      if cs[0].tag != tag && FindIn(cs, tag).Some? {
        var i :| 0 <= i < |cs[1..]| && cs[1..][i] == FindIn(cs, tag).value
                 && forall j :: 0 <= j < i ==> cs[1..][j].tag != tag;
        assert cs[i + 1] == FindIn(cs, tag).value;
      }
    }
  }

  /** `find` answers with the earliest child carrying the tag, and with None exactly when no
      direct child carries it. */
  lemma FindIsFirst(parent: Element, tag: string)
    ensures Find(parent, tag).None? <==> forall i :: 0 <= i < |parent.children| ==> parent.children[i].tag != tag
    ensures Find(parent, tag).Some? ==>
            exists i :: 0 <= i < |parent.children| && parent.children[i] == Find(parent, tag).value
                        && forall j :: 0 <= j < i ==> parent.children[j].tag != tag
  {
    FindInIsFirst(parent.children, tag);
  }

  /** Children after the first match are never looked at. */
  lemma {:induction false} FindInIgnoresLater(cs: seq<Element>, more: seq<Element>, tag: string)
    requires FindIn(cs, tag).Some?
    ensures FindIn(cs + more, tag) == FindIn(cs, tag)
  {
    if cs[0].tag != tag {
      assert (cs + more)[1..] == cs[1..] + more;
      FindInIgnoresLater(cs[1..], more, tag);
    }
  }

  /** The test both readers share: the child is missing, has no text, or its text is all
      whitespace (`el is None or el.text is None or el.text.strip() == ""`). */
  predicate Blank(el: Option<Element>) {
    el.None? || el.value.text.None? || Text.Strip(el.value.text.value) == ""
  }

  /** Blank means "missing, no text, or only whitespace"; otherwise the stripped text is a
      non-empty slice of the text that neither starts nor ends with whitespace. */
  lemma BlankIsAllSpace(el: Option<Element>)
    ensures Blank(el) <==> el.None? || el.value.text.None? || Text.AllSpace(el.value.text.value)
    ensures !Blank(el) ==>
      var t := el.value.text.value;
      var r := Text.Strip(t);
      && r != "" && !Text.IsSpace(r[0]) && !Text.IsSpace(r[|r| - 1])
      && exists i, j :: 0 <= i <= j <= |t| && r == t[i..j] && Text.AllSpace(t[..i]) && Text.AllSpace(t[j..])
  {
    if el.Some? && el.value.text.Some? {
      Text.StripEmpty(el.value.text.value);
      Text.StripIsTrimmedSlice(el.value.text.value);
    }
  }

  /** `_get_float`. A blank child reads as 0.0; otherwise `float()` is applied to the raw text
      (Python's `float()` itself tolerates the surrounding whitespace). */
  function GetFloat(parent: Element, tag: string, parse: FloatParser): (r: Result<real, CostError>)
    ensures (forall c :: c in parent.children ==> c.tag != tag) ==> r == Ok(0.0)
    ensures Find(parent, tag).Some? && Find(parent, tag).value.text.None? ==> r == Ok(0.0)
    ensures Find(parent, tag).Some? && Find(parent, tag).value.text.Some? ==>
            var t := Find(parent, tag).value.text.value;
            if Text.AllSpace(t) then r == Ok(0.0)
            else r == if parse(t).Some? then Ok(parse(t).value) else Err(FloatConversion(tag, t))
  {
    var el := Find(parent, tag);
    FindIsFirst(parent, tag);
    BlankIsAllSpace(el);
    if Blank(el) then Ok(0.0)
    else
      var t := el.value.text.value;
      match parse(t)
      case Some(v) => Ok(v)
      case None => Err(FloatConversion(tag, t))
  }

  /** `_get_text`. None for a blank child; otherwise the whitespace-trimmed text, which is then
      non-empty, starts and ends with a non-space and is a slice of the raw text. */
  function GetText(parent: Element, tag: string): (r: Option<string>)
    ensures r.None? <==> Find(parent, tag).None? || Find(parent, tag).value.text.None?
                         || Text.AllSpace(Find(parent, tag).value.text.value)
    ensures r.Some? ==> r.value != "" && !Text.IsSpace(r.value[0]) && !Text.IsSpace(r.value[|r.value| - 1])
    ensures r.Some? ==> var t := Find(parent, tag).value.text.value;
                        exists i, j :: 0 <= i <= j <= |t| && r.value == t[i..j]
                                       && Text.AllSpace(t[..i]) && Text.AllSpace(t[j..])
  {
    var el := Find(parent, tag);
    BlankIsAllSpace(el);
    if Blank(el) then None else Some(Text.Strip(el.value.text.value))
  }

  datatype TaxData = TaxData(
    swacchBharatTax: real,
    igst: real,
    sgst: real,
    serviceTax: real,
    krishiKalyanCess: real,
    cgst: real)

  const ZeroTax := TaxData(0.0, 0.0, 0.0, 0.0, 0.0, 0.0)

  /** The tags of the taxes, in declaration order. */
  const TaxTags: seq<string> := ["swacch_bharat_tax", "IGST", "SGST", "service_tax", "krishi_kalyan_cess", "CGST"]

  /** `DelhiveryTaxData.from_xml`: the all-zero record when there is no tax element, otherwise
      each tax read from the child of the same name, in declaration order; the first tax that
      does not read aborts with its error. */
  function TaxFromXml(taxElement: Option<Element>, parse: FloatParser): (r: Result<TaxData, CostError>)
    ensures taxElement.None? ==> r == Ok(ZeroTax)
    ensures taxElement.Some? ==>
      (r.Ok? <==> forall k :: 0 <= k < |TaxTags| ==> GetFloat(taxElement.value, TaxTags[k], parse).Ok?)
    ensures taxElement.Some? && r.Ok? ==>
      && GetFloat(taxElement.value, "swacch_bharat_tax", parse) == Ok(r.value.swacchBharatTax)
      && GetFloat(taxElement.value, "IGST", parse) == Ok(r.value.igst)
      && GetFloat(taxElement.value, "SGST", parse) == Ok(r.value.sgst)
      && GetFloat(taxElement.value, "service_tax", parse) == Ok(r.value.serviceTax)
      && GetFloat(taxElement.value, "krishi_kalyan_cess", parse) == Ok(r.value.krishiKalyanCess)
      && GetFloat(taxElement.value, "CGST", parse) == Ok(r.value.cgst)
    ensures taxElement.Some? && r.Err? ==>
      exists k :: 0 <= k < |TaxTags| && GetFloat(taxElement.value, TaxTags[k], parse) == Err(r.error)
                  && forall j :: 0 <= j < k ==> GetFloat(taxElement.value, TaxTags[j], parse).Ok?
  {
    if taxElement.None? then Ok(ZeroTax)
    else
      ReadFloatsPointwise(taxElement.value, TaxTags, parse);
      var v :- ReadFloats(taxElement.value, TaxTags, parse);
      Ok(TaxData(v[0], v[1], v[2], v[3], v[4], v[5]))
  }

  /** A tax element without children reads as the all-zero record, like a missing one. */
  lemma EmptyTaxElementIsZero(tag: string, text: Option<string>, parse: FloatParser)
    ensures TaxFromXml(Some(Element(tag, text, [])), parse) == Ok(ZeroTax)
  {
    ReadFloatsChildless(Element(tag, text, []), TaxTags, parse);
  }

  datatype InvoiceChargeItem = InvoiceChargeItem(
    chargeROV: real,
    chargeREATTEMPT: real,
    chargeRTO: real,
    chargeMPS: real,
    chargePickup: real,
    chargeCWH: real,
    taxData: TaxData,
    chargeDEMUR: real,
    chargeAWB: real,
    zone: Option<string>,
    wtRuleId: Option<string>,
    chargeAIR: real,
    chargeFSC: real,
    chargeLABEL: real,
    chargeCOD: real,
    status: Option<string>,
    chargePEAK: real,
    chargePOD: real,
    chargeLM: real,
    adhocData: Option<string>,
    chargeCCOD: real,
    grossAmount: real,
    chargeE2E: real,
    chargeDTO: real,
    chargeCOVID: real,
    zonalCl: Option<string>,
    chargeDL: real,
    totalAmount: real,
    chargeDPH: real,
    chargeFOD: real,
    chargeDOCUMENT: real,
    chargeWOD: real,
    chargeINS: real,
    chargeFS: real,
    chargeCNC: real,
    chargeFOV: real,
    chargeQC: real,
    chargedWeight: real)

  /** Every charge 0, every text None, tax all zero: the record's defaults. */
  const DefaultChargeItem := InvoiceChargeItem(0.0, 0.0, 0.0, 0.0, 0.0, 0.0, ZeroTax, 0.0, 0.0, None, None, 0.0, 0.0, 0.0, 0.0, None, 0.0, 0.0, 0.0, None, 0.0, 0.0, 0.0, 0.0, 0.0, None, 0.0, 0.0, 0.0, 0.0, 0.0, 0.0, 0.0, 0.0, 0.0, 0.0, 0.0, 0.0)

  /** The tags of the numeric charges, in declaration order. */
  const FloatTags: seq<string> := ["charge_ROV", "charge_REATTEMPT", "charge_RTO", "charge_MPS", "charge_pickup", "charge_CWH", "charge_DEMUR", "charge_AWB", "charge_AIR", "charge_FSC", "charge_LABEL", "charge_COD", "charge_PEAK", "charge_POD", "charge_LM", "charge_CCOD", "gross_amount", "charge_E2E", "charge_DTO", "charge_COVID", "charge_DL", "total_amount", "charge_DPH", "charge_FOD", "charge_DOCUMENT", "charge_WOD", "charge_INS", "charge_FS", "charge_CNC", "charge_FOV", "charge_QC", "charged_weight"]

  /** The numeric charge at position `k` of `FloatTags`. */
  function Charge(item: InvoiceChargeItem, k: nat): real
    requires k < 32
  {
    match k
    case 0 => item.chargeROV
    case 1 => item.chargeREATTEMPT
    case 2 => item.chargeRTO
    case 3 => item.chargeMPS
    case 4 => item.chargePickup
    case 5 => item.chargeCWH
    case 6 => item.chargeDEMUR
    case 7 => item.chargeAWB
    case 8 => item.chargeAIR
    case 9 => item.chargeFSC
    case 10 => item.chargeLABEL
    case 11 => item.chargeCOD
    case 12 => item.chargePEAK
    case 13 => item.chargePOD
    case 14 => item.chargeLM
    case 15 => item.chargeCCOD
    case 16 => item.grossAmount
    case 17 => item.chargeE2E
    case 18 => item.chargeDTO
    case 19 => item.chargeCOVID
    case 20 => item.chargeDL
    case 21 => item.totalAmount
    case 22 => item.chargeDPH
    case 23 => item.chargeFOD
    case 24 => item.chargeDOCUMENT
    case 25 => item.chargeWOD
    case 26 => item.chargeINS
    case 27 => item.chargeFS
    case 28 => item.chargeCNC
    case 29 => item.chargeFOV
    case 30 => item.chargeQC
    case _ => item.chargedWeight
  }

  /** The numeric charges of `item`, in the order of `FloatTags`. */
  function Charges(item: InvoiceChargeItem): (c: seq<real>)
    ensures |c| == |FloatTags|
    ensures forall k :: 0 <= k < |c| ==> c[k] == Charge(item, k)
  {
    seq(32, k requires 0 <= k < 32 => Charge(item, k))
  }

  /** The numeric children named by `tags`, read in order; the first refusal of `float()` aborts. */
  function ReadFloats(item: Element, tags: seq<string>, parse: FloatParser): (r: Result<seq<real>, CostError>)
    ensures r.Ok? ==> |r.value| == |tags|
  {
    if tags == [] then Ok([])
    else
      var first :- GetFloat(item, tags[0], parse);
      var rest :- ReadFloats(item, tags[1..], parse);
      Ok([first] + rest)
  }

  /** Reading a list of tags succeeds exactly when every tag reads, and then gives each tag's
      value at its position. */
  lemma {:induction false} ReadFloatsOk(item: Element, tags: seq<string>, parse: FloatParser)
    ensures ReadFloats(item, tags, parse).Ok? <==> forall k :: 0 <= k < |tags| ==> GetFloat(item, tags[k], parse).Ok?
    ensures ReadFloats(item, tags, parse).Ok? ==>
            forall k :: 0 <= k < |tags| ==> GetFloat(item, tags[k], parse) == Ok(ReadFloats(item, tags, parse).value[k])
  {
    if tags != [] {
      ReadFloatsOk(item, tags[1..], parse);
      assert forall k :: 1 <= k < |tags| ==> tags[k] == tags[1..][k - 1];
    }
  }

  /** A failed read reports the error of the first tag that does not read. */
  lemma {:induction false} ReadFloatsFirstError(item: Element, tags: seq<string>, parse: FloatParser)
    requires ReadFloats(item, tags, parse).Err?
    ensures exists k :: 0 <= k < |tags| && GetFloat(item, tags[k], parse) == Err(ReadFloats(item, tags, parse).error)
                        && forall j :: 0 <= j < k ==> GetFloat(item, tags[j], parse).Ok?
  {
    var e := ReadFloats(item, tags, parse).error;
    if GetFloat(item, tags[0], parse).Ok? {
      ReadFloatsFirstError(item, tags[1..], parse);
      var k :| 0 <= k < |tags[1..]| && GetFloat(item, tags[1..][k], parse) == Err(e)
               && forall j :: 0 <= j < k ==> GetFloat(item, tags[1..][j], parse).Ok?;
      assert GetFloat(item, tags[k + 1], parse) == Err(e);
      forall j | 0 <= j < k + 1 ensures GetFloat(item, tags[j], parse).Ok? {
        if j > 0 { assert tags[j] == tags[1..][j - 1]; }
      }
    } else {
      assert GetFloat(item, tags[0], parse) == Err(e);
    }
  }

  /** The values read for a list of tags are, position by position, the readings of the tags. */
  lemma ReadFloatsAt(item: Element, tags: seq<string>, c: seq<real>, parse: FloatParser)
    requires ReadFloats(item, tags, parse) == Ok(c)
    ensures forall k :: 0 <= k < |tags| ==> GetFloat(item, tags[k], parse) == Ok(c[k])
  {
    ReadFloatsOk(item, tags, parse);
  }

  /** Reading a list of tags succeeds exactly when every tag reads, gives each tag's value at
      its position, and otherwise fails with the error of the first tag that does not read. */
  lemma ReadFloatsPointwise(item: Element, tags: seq<string>, parse: FloatParser)
    ensures ReadFloats(item, tags, parse).Ok? <==> forall k :: 0 <= k < |tags| ==> GetFloat(item, tags[k], parse).Ok?
    ensures ReadFloats(item, tags, parse).Ok? ==>
            forall k :: 0 <= k < |tags| ==> GetFloat(item, tags[k], parse) == Ok(ReadFloats(item, tags, parse).value[k])
    ensures ReadFloats(item, tags, parse).Err? ==>
            exists k :: 0 <= k < |tags| && GetFloat(item, tags[k], parse) == Err(ReadFloats(item, tags, parse).error)
                        && forall j :: 0 <= j < k ==> GetFloat(item, tags[j], parse).Ok?
  {
    ReadFloatsOk(item, tags, parse);
    if ReadFloats(item, tags, parse).Err? {
      ReadFloatsFirstError(item, tags, parse);
    }
  }

  /** The record with the numeric charges `v` (in the order of `FloatTags`) and the other fields given. */
  function Assemble(v: seq<real>, taxData: TaxData, zone: Option<string>, wtRuleId: Option<string>,
                    status: Option<string>, adhocData: Option<string>, zonalCl: Option<string>): (rec: InvoiceChargeItem)
    requires |v| == |FloatTags|
    ensures Charges(rec) == v
    ensures rec.taxData == taxData && rec.zone == zone && rec.wtRuleId == wtRuleId
    ensures rec.status == status && rec.adhocData == adhocData && rec.zonalCl == zonalCl
  {
    assert |v| == 32;
    InvoiceChargeItem(
    v[0], v[1], v[2], v[3], v[4], v[5],
    taxData, v[6], v[7], zone, wtRuleId, v[8],
    v[9], v[10], v[11], status, v[12], v[13],
    v[14], adhocData, v[15], v[16], v[17], v[18],
    v[19], zonalCl, v[20], v[21], v[22], v[23],
    v[24], v[25], v[26], v[27], v[28], v[29],
    v[30], v[31])
  }

  /** `n` zeros. */
  function Zeros(n: nat): (z: seq<real>)
    ensures |z| == n && forall k :: 0 <= k < n ==> z[k] == 0.0
  {
    seq(n, _ => 0.0)
  }

  /** An element without children reads 0 for every tag. */
  lemma {:induction false} ReadFloatsChildless(item: Element, tags: seq<string>, parse: FloatParser)
    requires item.children == []
    ensures ReadFloats(item, tags, parse) == Ok(Zeros(|tags|))
  {
    if tags != [] {
      ReadFloatsChildless(item, tags[1..], parse);
      assert GetFloat(item, tags[0], parse) == Ok(0.0);
      assert [0.0] + Zeros(|tags| - 1) == Zeros(|tags|);
    }
  }

  /** Reading two runs of tags one after the other is reading their concatenation. */
  lemma {:induction false} ReadFloatsAppend(item: Element, a: seq<string>, b: seq<string>, parse: FloatParser)
    requires ReadFloats(item, a, parse).Ok? && ReadFloats(item, b, parse).Ok?
    ensures ReadFloats(item, a + b, parse) == Ok(ReadFloats(item, a, parse).value + ReadFloats(item, b, parse).value)
  {
    if a == [] {
      assert a + b == b;
      assert ReadFloats(item, a, parse) == Ok([]);
      assert [] + ReadFloats(item, b, parse).value == ReadFloats(item, b, parse).value;
    } else {
      assert (a + b)[0] == a[0] && (a + b)[1..] == a[1..] + b;
      ReadFloatsAppend(item, a[1..], b, parse);
      var first := GetFloat(item, a[0], parse).value;
      var restA := ReadFloats(item, a[1..], parse).value;
      var rb := ReadFloats(item, b, parse).value;
      assert ReadFloats(item, a, parse).value == [first] + restA;
      assert ReadFloats(item, a + b, parse) == Ok([first] + (restA + rb));
      assert [first] + (restA + rb) == [first] + restA + rb;
    }
  }

  /** Reads one `<list-item>` element: each field from the child of the same name, the tax
      breakdown from the nested `tax_data` child, in declaration order (the six charges before
      `tax_data`, the tax, then the rest); the first refusal of `float()` aborts. */
  function ChargeItemFromElement(item: Element, parse: FloatParser): (r: Result<InvoiceChargeItem, CostError>)
    ensures r.Ok? ==> TaxFromXml(Find(item, "tax_data"), parse) == Ok(r.value.taxData)
    ensures r.Ok? ==> r.value.zone == GetText(item, "zone") && r.value.status == GetText(item, "status")
  {
    var before :- ReadFloats(item, FloatTags[..6], parse);
    var taxData :- TaxFromXml(Find(item, "tax_data"), parse);
    var after :- ReadFloats(item, FloatTags[6..], parse);
    Ok(Assemble(before + after, taxData, GetText(item, "zone"), GetText(item, "wt_rule_id"),
                GetText(item, "status"), GetText(item, "adhoc_data"), GetText(item, "zonal_cl")))
  }

  /** `DelhiveryInvoiceChargeItem.from_xml` on an already parsed document. */
  function ChargeItemFromXml(root: Element, parse: FloatParser): (r: Result<InvoiceChargeItem, CostError>)
    ensures (forall c :: c in root.children ==> c.tag != "list-item") ==> r == Err(ListItemNotFound)
  {
    FindIsFirst(root, "list-item");
    match Find(root, "list-item")
    case None => Err(ListItemNotFound)
    case Some(item) => ChargeItemFromElement(item, parse)
  }

  /** A document whose `<list-item>` has no children reads as the default record: every charge
      0, every text None, tax all zero. */
  lemma MinimalDocument(rootTag: string, rootText: Option<string>, itemText: Option<string>, parse: FloatParser)
    ensures ChargeItemFromXml(Element(rootTag, rootText, [Element("list-item", itemText, [])]), parse)
            == Ok(DefaultChargeItem)
  {
    var item := Element("list-item", itemText, []);
    ReadFloatsChildless(item, FloatTags[..6], parse);
    ReadFloatsChildless(item, FloatTags[6..], parse);
    var v := ReadFloats(item, FloatTags[..6], parse).value + ReadFloats(item, FloatTags[6..], parse).value;
    assert v == Zeros(|FloatTags|);
    assert Assemble(v, ZeroTax, None, None, None, None, None) == DefaultChargeItem;
  }

  /** Reading the tags before and after a split point is reading them all. */
  lemma ReadFloatsSplit(item: Element, tags: seq<string>, i: nat, parse: FloatParser)
    requires i <= |tags|
    requires ReadFloats(item, tags[..i], parse).Ok? && ReadFloats(item, tags[i..], parse).Ok?
    ensures ReadFloats(item, tags, parse) == Ok(ReadFloats(item, tags[..i], parse).value + ReadFloats(item, tags[i..], parse).value)
  {
    ReadFloatsAppend(item, tags[..i], tags[i..], parse);
    assert tags[..i] + tags[i..] == tags;
  }

  /** The numeric charges of a successfully read `<list-item>`: those before `tax_data`, then
      those after it. */
  lemma ChargeItemCharges(item: Element, parse: FloatParser)
    requires ChargeItemFromElement(item, parse).Ok?
    ensures ReadFloats(item, FloatTags[..6], parse).Ok? && ReadFloats(item, FloatTags[6..], parse).Ok?
    ensures Charges(ChargeItemFromElement(item, parse).value)
            == ReadFloats(item, FloatTags[..6], parse).value + ReadFloats(item, FloatTags[6..], parse).value
  {
  }

  /** The parts a successfully read `<list-item>` is assembled from. */
  lemma ChargeItemParts(item: Element, parse: FloatParser)
    requires ChargeItemFromElement(item, parse).Ok?
    ensures ReadFloats(item, FloatTags[..6], parse).Ok? && ReadFloats(item, FloatTags[6..], parse).Ok?
    ensures var rec := ChargeItemFromElement(item, parse).value;
            && Charges(rec) == ReadFloats(item, FloatTags[..6], parse).value + ReadFloats(item, FloatTags[6..], parse).value
            && TaxFromXml(Find(item, "tax_data"), parse) == Ok(rec.taxData)
            && rec.zone == GetText(item, "zone") && rec.wtRuleId == GetText(item, "wt_rule_id")
            && rec.status == GetText(item, "status") && rec.adhocData == GetText(item, "adhoc_data")
            && rec.zonalCl == GetText(item, "zonal_cl")
  {
  }

  /** Every numeric charge of a successfully read `<list-item>` is the reading of its own tag. */
  lemma ChargesFromOwnTags(item: Element, parse: FloatParser)
    requires ChargeItemFromElement(item, parse).Ok?
    ensures forall k :: 0 <= k < |FloatTags| ==>
              GetFloat(item, FloatTags[k], parse) == Ok(Charges(ChargeItemFromElement(item, parse).value)[k])
  {
    var c := Charges(ChargeItemFromElement(item, parse).value);
    assert ReadFloats(item, FloatTags, parse) == Ok(c) by {
      ChargeItemCharges(item, parse);
      ReadFloatsSplit(item, FloatTags, 6, parse);
    }
    ReadFloatsAt(item, FloatTags, c, parse);
  }

  /** Each field of a parsed record is what the reader gives for the child of the same name
      under the first `<list-item>`: the numeric charges by `GetFloat`, the texts by `GetText`,
      the tax breakdown from the nested `tax_data` child. */
  lemma FieldsReadFromSameTag(root: Element, parse: FloatParser)
    requires ChargeItemFromXml(root, parse).Ok?
    ensures Find(root, "list-item").Some?
    ensures var item := Find(root, "list-item").value;
            var rec := ChargeItemFromXml(root, parse).value;
            && (forall k :: 0 <= k < |FloatTags| ==> GetFloat(item, FloatTags[k], parse) == Ok(Charges(rec)[k]))
            && TaxFromXml(Find(item, "tax_data"), parse) == Ok(rec.taxData)
            && rec.zone == GetText(item, "zone") && rec.wtRuleId == GetText(item, "wt_rule_id")
            && rec.status == GetText(item, "status") && rec.adhocData == GetText(item, "adhoc_data")
            && rec.zonalCl == GetText(item, "zonal_cl")
  {
    var item := Find(root, "list-item").value;
    assert ChargeItemFromXml(root, parse) == ChargeItemFromElement(item, parse);
    ChargeItemParts(item, parse);
    ChargesFromOwnTags(item, parse);
  }

  /** A document reads exactly when it has a `<list-item>` child, every numeric charge under it
      reads and its tax breakdown reads; a missing `<list-item>` is reported as such. */
  lemma ChargeItemOkIff(root: Element, parse: FloatParser)
    ensures ChargeItemFromXml(root, parse).Ok? <==>
            && Find(root, "list-item").Some?
            && var item := Find(root, "list-item").value;
               && (forall k :: 0 <= k < |FloatTags| ==> GetFloat(item, FloatTags[k], parse).Ok?)
               && TaxFromXml(Find(item, "tax_data"), parse).Ok?
    ensures Find(root, "list-item").None? ==> ChargeItemFromXml(root, parse) == Err(ListItemNotFound)
  {
    if Find(root, "list-item").Some? {
      var item := Find(root, "list-item").value;
      assert ChargeItemFromXml(root, parse) == ChargeItemFromElement(item, parse);
      if ChargeItemFromElement(item, parse).Ok? {
        ElementOkReadsAll(item, parse);
      } else if forall k :: 0 <= k < |FloatTags| ==> GetFloat(item, FloatTags[k], parse).Ok? {
        AllReadElementOk(item, parse);
      }
    }
  }

  /** A `<list-item>` that reads has every charge and its tax reading. */
  lemma ElementOkReadsAll(item: Element, parse: FloatParser)
    requires ChargeItemFromElement(item, parse).Ok?
    ensures forall k :: 0 <= k < |FloatTags| ==> GetFloat(item, FloatTags[k], parse).Ok?
    ensures TaxFromXml(Find(item, "tax_data"), parse).Ok?
  {
    ChargesFromOwnTags(item, parse);
  }

  /** A `<list-item>` whose charges and tax all read, reads. */
  lemma AllReadElementOk(item: Element, parse: FloatParser)
    requires forall k :: 0 <= k < |FloatTags| ==> GetFloat(item, FloatTags[k], parse).Ok?
    ensures TaxFromXml(Find(item, "tax_data"), parse).Ok? ==> ChargeItemFromElement(item, parse).Ok?
  {
    ReadFloatsOk(item, FloatTags[..6], parse);
    ReadFloatsOk(item, FloatTags[6..], parse);
    assert forall k :: 0 <= k < 6 ==> FloatTags[..6][k] == FloatTags[k];
    assert forall k :: 0 <= k < 26 ==> FloatTags[6..][k] == FloatTags[k + 6];
  }

  /** Only the first direct `<list-item>` child of the root is read: children after it change
      nothing. */
  lemma FirstListItemOnly(tag: string, text: Option<string>, cs: seq<Element>, more: seq<Element>, parse: FloatParser)
    requires exists i :: 0 <= i < |cs| && cs[i].tag == "list-item"
    ensures ChargeItemFromXml(Element(tag, text, cs + more), parse) == ChargeItemFromXml(Element(tag, text, cs), parse)
  {
    FindInIsFirst(cs, "list-item");
    FindInIgnoresLater(cs, more, "list-item");
  }
}
