/** The `Pohoda\Invoice` aggregate: a builder that collects header fields,
    invoice lines and the issuer's identity, records soft validation errors as
    its setters run, and writes one `inv:invoice` element of the Stormware
    Pohoda invoice schema (version 2). */
module Pohoda {
  import opened Values
  import opened Strings
  import opened Dates
  import opened Validators
  import opened Xml

  /** One invoice line, as the getters of `InvoiceItem` return it (the class
      itself is not part of this model). `hasHomeCurrency` is whether
      `getHomeCurrency()` is non-empty. */
  datatype Item = Item(
    text: Scalar, quantity: Scalar, unit: Scalar, coefficient: Scalar,
    payVAT: bool, rateVAT: Scalar, discountPercentage: Scalar,
    hasHomeCurrency: bool, unitPrice: Scalar, price: Scalar, priceVAT: Scalar,
    note: Scalar, code: Scalar, guarantee: Scalar, guaranteeType: Scalar,
    stockItem: Scalar)

  /** The customer's `Pohoda\Export\Address`, known here only by the nodes its
      `exportAddress` appends under `inv:partnerIdentity`. */
  datatype PartyAddress = PartyAddress(exported: seq<Node>)

  const InvoiceVersion := "2.0"
  const IntNote := "Tento doklad byl vytvořen importem přes XML."
  const MissingPrefix := "Není nastaven povinný prvek "

  /** The required properties, in the order `checkRequired` visits them. */
  const Required: seq<string> := ["date", "varNum", "text"]

  /** The payment codes `setPaymentType` accepts, in the order of its table. */
  const PaymentCodes: seq<string> :=
    ["draft", "cash", "postal", "delivery", "creditcard", "advance", "encashment", "cheque", "compensation"]

  /** The Czech label of each payment code. */
  const PaymentLabels: map<string, string> := map[
    "draft" := "příkazem", "cash" := "hotově", "postal" := "složenkou",
    "delivery" := "dobírka", "creditcard" := "platební kartou",
    "advance" := "zálohová faktura", "encashment" := "inkasem",
    "cheque" := "šekem", "compensation" := "zápočtem"]

  /** `isset($payments[$value])` */
  predicate KnownPaymentType(v: Option<string>)
  {
    v.Some? && v.value in PaymentLabels
  }

  function Interpolated(v: Option<string>): string
  {
    match v
    case None => ""
    case Some(s) => s
  }

  function UnsupportedPrefix(v: Option<string>): string
  {
    "Payment type " + Interpolated(v) + " is not supported. Use one of these: "
  }

  /** `implode(", ", xs)` */
  function Join(xs: seq<string>): (r: string)
  {
    if xs == [] then ""
    else if |xs| == 1 then xs[0]
    else xs[0] + ", " + Join(xs[1..])
  }

  /** The message as written: `explode(",", array_keys(...))` passes an array
      where a string is expected, so under PHP 7 the listing is null and adds
      nothing to the message (PHP 8 throws a TypeError instead). */
  function UnsupportedPaymentMessageAsWritten(v: Option<string>): (r: string)
    ensures |r| == |UnsupportedPrefix(v)|
  {
    UnsupportedPrefix(v) + ""
  }

  /** The message as evidently intended: the accepted codes joined with a
      comma and a space; every code appears in the listing. */
  function UnsupportedPaymentMessage(v: Option<string>): (r: string)
    ensures |r| > |UnsupportedPrefix(v)| && r[..|UnsupportedPrefix(v)|] == UnsupportedPrefix(v)
    ensures forall c :: c in PaymentCodes ==> Contains(r[|UnsupportedPrefix(v)|..], c)
  {
    var listing := Join(PaymentCodes);
    forall c | c in PaymentCodes
      ensures Contains(listing, c)
    {
      JoinContains(PaymentCodes, c);
    }
    var r := UnsupportedPrefix(v) + listing;
    assert r[|UnsupportedPrefix(v)|..] == listing;
    r
  }

  ghost predicate Contains(s: string, part: string)
  {
    exists i :: OccursAt(s, part, i)
  }

  predicate OccursAt(s: string, part: string, i: int)
  {
    0 <= i <= |s| - |part| && s[i..i + |part|] == part
  }

  lemma {:induction false} JoinContains(xs: seq<string>, x: string)
    requires x in xs
    ensures Contains(Join(xs), x)
  {
    var j := Join(xs);
    if |xs| == 1 {
      assert OccursAt(j, x, 0);
    } else if xs[0] == x {
      assert j == x + ", " + Join(xs[1..]);
      assert OccursAt(j, x, 0);
    } else {
      JoinContains(xs[1..], x);
      var t := Join(xs[1..]);
      var k :| OccursAt(t, x, k);
      var off := |xs[0]| + 2;
      assert j == xs[0] + ", " + t;
      assert j[off + k..off + k + |x|] == t[k..k + |x|];
      assert OccursAt(j, x, off + k);
    }
  }

  /** Each message of a list, prefixed with `id` and a colon (the closure
      `getErrors` maps over the merged list). */
  function Prefixed(id: string, msgs: seq<string>): (r: seq<string>)
    ensures |r| == |msgs|
    ensures forall i :: 0 <= i < |msgs| ==> r[i] == id + ":" + msgs[i]
  {
    if msgs == [] then [] else [id + ":" + msgs[0]] + Prefixed(id, msgs[1..])
  }

  function Field(data: map<string, string>, key: string): Option<string>
  {
    if key in data then Some(data[key]) else None
  }

  /** The identity `setProviderIdentity` stores: the given map with `ico` and
      `zip` stripped of whitespace, every other entry as given. */
  function NormalizedIdentity(value: map<string, string>): (r: map<string, string>)
    ensures r.Keys == value.Keys
    ensures forall k :: k in value && k != "ico" && k != "zip" ==> r[k] == value[k]
    ensures forall k :: k in value && (k == "ico" || k == "zip") ==> r[k] == RemoveSpaces(value[k])
  {
    var withIco := if "ico" in value then value["ico" := RemoveSpaces(value["ico"])] else value;
    if "zip" in withIco then withIco["zip" := RemoveSpaces(withIco["zip"])] else withIco
  }

  /** The soft errors `setProviderIdentity` records, in the order it checks
      company, ico, street, zip and city; a missing key is not checked. */
  function IdentityErrors(value: map<string, string>): seq<string>
  {
    var id := NormalizedIdentity(value);
    EntryErrors(id, "company", "provider - company", 96, false)
    + EntryErrors(id, "ico", "provider - ico", 15, true)
    + EntryErrors(id, "street", "provider - street", 64, false)
    + EntryErrors(id, "zip", "provider - zip", 15, true)
    + EntryErrors(id, "city", "provider - city", 45, false)
  }

  /** The error one `isset`-guarded check of an identity entry records. */
  function EntryErrors(id: map<string, string>, key: string, name: string, maxLength: nat, isNumeric: bool): seq<string>
  {
    if key in id then ToSeq(Validate(name, Text(id[key]), maxLength, isNumeric, false)) else []
  }

  lemma AppendFive<T>(s: seq<T>, a: seq<T>, b: seq<T>, c: seq<T>, d: seq<T>, e: seq<T>)
    ensures s + (a + b + c + d + e) == s + a + b + c + d + e
  {
  }

  /** `exportAddress($xml, $data, $type)`: a `typ:<type>` element with one child
      per address field that is set, in a fixed order: the names, then the
      place, then the registration and contact fields. */
  function AddressElement(data: map<string, string>, kind: string): Node
  {
    Element("typ:" + kind, AddressNames(data) + AddressPlace(data) + AddressContact(data))
  }

  function AddressNames(data: map<string, string>): seq<Node>
  {
    Optional("company" in data, Leaf("typ:company", Field(data, "company")))
    + Optional("name" in data, Leaf("typ:name", Field(data, "name")))
    + Optional("division" in data, Leaf("typ:division", Field(data, "division")))
  }

  /** The country is written as a `typ:country` wrapper around `typ:ids`. */
  function AddressPlace(data: map<string, string>): seq<Node>
  {
    Optional("city" in data, Leaf("typ:city", Field(data, "city")))
    + Optional("street" in data, Leaf("typ:street", Field(data, "street")))
    + Optional("number" in data, Leaf("typ:number", Field(data, "number")))
    + Optional("country" in data, Element("typ:country", [Leaf("typ:ids", Field(data, "country"))]))
    + Optional("zip" in data, Leaf("typ:zip", Field(data, "zip")))
  }

  /** The `phone` entry is written as `typ:mobilPhone`. */
  function AddressContact(data: map<string, string>): seq<Node>
  {
    Optional("ico" in data, Leaf("typ:ico", Field(data, "ico")))
    + Optional("dic" in data, Leaf("typ:dic", Field(data, "dic")))
    + Optional("phone" in data, Leaf("typ:mobilPhone", Field(data, "phone")))
    + Optional("email" in data, Leaf("typ:email", Field(data, "email")))
  }

  /** The `inv:homeCurrency` block of one line. */
  function ItemHomeCurrency(p: Item): Node
  {
    Element("inv:homeCurrency",
      Optional(Truthy(p.unitPrice), Leaf("typ:unitPrice", Rendered(p.unitPrice)))
      + Optional(Truthy(p.price), Leaf("typ:price", Rendered(p.price)))
      + Optional(Truthy(p.priceVAT), Leaf("typ:priceVAT", Rendered(p.priceVAT))))
  }

  /** The `inv:invoiceItem` element of one line. */
  function ItemElement(p: Item): Node
  {
    Element("inv:invoiceItem", ItemAmounts(p) + ItemRemarks(p))
  }

  /** Text, quantity, unit, coefficient and the VAT flag, then the rate, the
      discount and the home-currency block when present. */
  function ItemAmounts(p: Item): seq<Node>
  {
    [ Leaf("inv:text", Rendered(p.text)),
      Leaf("inv:quantity", Rendered(p.quantity)),
      Leaf("inv:unit", Rendered(p.unit)),
      Leaf("inv:coefficient", Rendered(p.coefficient)),
      Leaf("inv:payVAT", Some(if p.payVAT then "true" else "false")) ]
    + Optional(Truthy(p.rateVAT), Leaf("inv:rateVAT", Rendered(p.rateVAT)))
    + Optional(Truthy(p.discountPercentage), Leaf("inv:discountPercentage", Rendered(p.discountPercentage)))
    + Optional(p.hasHomeCurrency, ItemHomeCurrency(p))
  }

  /** Note, code, guarantee and guarantee type, then the stock reference
      when present. */
  function ItemRemarks(p: Item): seq<Node>
  {
    [ Leaf("inv:note", Rendered(p.note)),
      Leaf("inv:code", Rendered(p.code)),
      Leaf("inv:guarantee", Rendered(p.guarantee)),
      Leaf("inv:guaranteeType", Rendered(p.guaranteeType)) ]
    + Optional(Truthy(p.stockItem),
        Element("inv:stockItem", [Element("typ:stockItem", [Leaf("typ:ids", Rendered(p.stockItem))])]))
  }

  /** The lines of `inv:invoiceDetail`: one `inv:invoiceItem` per item, in
      insertion order. */
  function ItemElements(ps: seq<Item>): (r: seq<Node>)
    ensures |r| == |ps|
    ensures forall i :: 0 <= i < |ps| ==> r[i] == ItemElement(ps[i])
  {
    MapAll(ItemElement, ps)
  }

  class Invoice {
    const id: string
    var invoiceType: string
    var withVAT: bool
    var paymentType: string
    const roundingDocument: string := "math2one"
    const roundingVAT: string := "none"

    var varNum: Option<string>
    var date: Option<string>
    var dateTax: Option<string>
    var dateAccounting: Option<string>
    var dateDue: Option<string>
    var dateOrder: Option<string>
    var text: Option<string>
    var bankShortcut: string
    var note: Option<string>
    /** The label `setPaymentTypeString` writes and `exportHeader` reads; the
        source spells this dynamic property `paymentTypeSting`. */
    var paymentTypeSting: Option<string>
    var accounting: Option<string>
    var symbolicNumber: string

    var priceNone: Scalar
    var priceLow: Scalar
    var priceLowVAT: Scalar
    var priceLowSum: Scalar
    var priceHigh: Scalar
    var priceHightVAT: Scalar
    var priceHighSum: Scalar

    var numberOrder: Option<string>
    var contract: Option<string>

    var items: seq<Item>
    var myIdentity: map<string, string>
    var customerAddress: Option<PartyAddress>

    var errors: seq<string>
    var reqErrors: seq<string>

    constructor(id: string)
      ensures this.id == id && invoiceType == "issuedInvoice" && !withVAT
      ensures paymentType == "draft" && bankShortcut == "FIO" && symbolicNumber == "0308"
      ensures varNum.None? && date.None? && dateTax.None? && dateAccounting.None?
      ensures dateDue.None? && dateOrder.None? && text.None? && note.None?
      ensures paymentTypeSting.None? && accounting.None? && numberOrder.None? && contract.None?
      ensures priceNone.Null? && priceLow.Null? && priceLowVAT.Null? && priceLowSum.Null?
      ensures priceHigh.Null? && priceHightVAT.Null? && priceHighSum.Null?
      ensures items == [] && myIdentity == map[] && customerAddress.None?
      ensures errors == [] && reqErrors == []
    {
      this.id := id;
      invoiceType := "issuedInvoice";
      withVAT := false;
      paymentType := "draft";
      bankShortcut := "FIO";
      symbolicNumber := "0308";
      varNum, date, dateTax, dateAccounting, dateDue, dateOrder := None, None, None, None, None, None;
      text, note, paymentTypeSting, accounting, numberOrder, contract := None, None, None, None, None, None;
      priceNone, priceLow, priceLowVAT, priceLowSum := Null, Null, Null, Null;
      priceHigh, priceHightVAT, priceHighSum := Null, Null, Null;
      items, myIdentity, customerAddress := [], map[], None;
      errors, reqErrors := [], [];
    }

    /** The type check of the source is the type of the parameter. */
    method SetWithVat(b: bool)
      modifies this`withVAT
      ensures withVAT == b
    {
      withVAT := b;
    }

    // ---------------------------------------------------------------------
    // Validation state

    /** `isset($this->$param)` for a property named by a string. */
    function FieldIsSet(param: string): bool
      reads this`date, this`varNum, this`text
    {
      if param == "date" then date.Some?
      else if param == "varNum" then varNum.Some?
      else if param == "text" then text.Some?
      else false
    }

    /** One message per property of `params` that is not set, in order. */
    function MissingRequired(params: seq<string>): (r: seq<string>)
      reads this`date, this`varNum, this`text
      ensures |r| <= |params|
      ensures r == [] <==> forall i :: 0 <= i < |params| ==> FieldIsSet(params[i])
    {
      if params == [] then []
      else
        var last := params[|params| - 1];
        MissingRequired(params[..|params| - 1]) + (if FieldIsSet(last) then [] else [MissingPrefix + last])
    }

    /** `checkRequired`: rebuilds `reqErrors` and reports whether every
        required property is set. */
    method CheckRequired() returns (result: bool)
      modifies this`reqErrors
      ensures reqErrors == MissingRequired(Required)
      ensures result <==> date.Some? && varNum.Some? && text.Some?
    {
      result := true;
      reqErrors := [];
      var i := 0;
      while i < |Required|
        invariant 0 <= i <= |Required|
        invariant reqErrors == MissingRequired(Required[..i])
        invariant result <==> forall j :: 0 <= j < i ==> FieldIsSet(Required[j])
      {
        var param := Required[i];
        assert Required[..i + 1][..i] == Required[..i];
        if !FieldIsSet(param) {
          result := false;
          reqErrors := reqErrors + [MissingPrefix + param];
        }
        i := i + 1;
      }
      assert Required[..i] == Required;
      assert Required[0] == "date" && Required[1] == "varNum" && Required[2] == "text";
    }

    /** `isValid`: the required properties are set and no setter recorded an
        error; as a side effect `reqErrors` is brought up to date. */
    method IsValid() returns (valid: bool)
      modifies this`reqErrors
      ensures reqErrors == MissingRequired(Required)
      ensures valid <==> date.Some? && varNum.Some? && text.Some? && errors == []
    {
      var complete := CheckRequired();
      valid := complete && errors == [];
    }

    /** `getErrors`: the setter errors, then the required-property errors as
        `checkRequired` last left them, each prefixed with the id and a colon. */
    function GetErrors(): (r: seq<string>)
      reads this`errors, this`reqErrors
      ensures |r| == |errors| + |reqErrors|
      ensures forall i :: 0 <= i < |errors| ==> r[i] == id + ":" + errors[i]
      ensures forall i :: 0 <= i < |reqErrors| ==> r[|errors| + i] == id + ":" + reqErrors[i]
    {
      Prefixed(id, errors + reqErrors)
    }

    /** `validateItem`: appends the message of the first failing check, if any. */
    method ValidateItem(name: string, value: Input, maxLength: nat, isNumeric: bool, isDate: bool)
      requires value.DateTime? ==> maxLength == 0 && !isNumeric
      modifies this`errors
      ensures errors == old(errors) + ToSeq(Validate(name, value, maxLength, isNumeric, isDate))
    {
      match Validate(name, value, maxLength, isNumeric, isDate)
      case Some(m) => errors := errors + [m];
      case None =>
    }

    // ---------------------------------------------------------------------
    // Setters: each stores its (normalised) value whether or not it passed.

    method AddItem(item: Item)
      modifies this`items
      ensures items == old(items) + [item]
    {
      items := items + [item];
    }

    /** Stores the order number as given; `None` (PHP's null) unsets it, and
        the export then leaves `inv:numberOrder` out. */
    method SetNumberOrder(order: Option<string>)
      modifies this`numberOrder
      ensures numberOrder == order
    {
      numberOrder := order;
    }

    method SetVariableNumber(value: string)
      modifies this`varNum, this`errors
      ensures varNum == Some(RemoveSpaces(value))
      ensures errors == old(errors) + ToSeq(Validate("variable number", Text(RemoveSpaces(value)), 20, true, false))
    {
      var v := RemoveSpaces(value);
      ValidateItem("variable number", Text(v), 20, true, false);
      varNum := Some(v);
    }

    method SetDateCreated(value: Input)
      modifies this`date, this`errors
      ensures date == Some(ConvertDate(value))
      ensures errors == old(errors) + ToSeq(Validate("date created", value, 0, false, true))
    {
      ValidateItem("date created", value, 0, false, true);
      date := Some(ConvertDate(value));
    }

    method SetDateTax(value: Input)
      modifies this`dateTax, this`errors
      ensures dateTax == Some(ConvertDate(value))
      ensures errors == old(errors) + ToSeq(Validate("date tax", value, 0, false, true))
    {
      ValidateItem("date tax", value, 0, false, true);
      dateTax := Some(ConvertDate(value));
    }

    method SetDateAccounting(value: Input)
      modifies this`dateAccounting, this`errors
      ensures dateAccounting == Some(ConvertDate(value))
      ensures errors == old(errors) + ToSeq(Validate("date accounting", value, 0, false, true))
    {
      ValidateItem("date accounting", value, 0, false, true);
      dateAccounting := Some(ConvertDate(value));
    }

    method SetDateDue(value: Input)
      modifies this`dateDue, this`errors
      ensures dateDue == Some(ConvertDate(value))
      ensures errors == old(errors) + ToSeq(Validate("date due", value, 0, false, true))
    {
      ValidateItem("date due", value, 0, false, true);
      dateDue := Some(ConvertDate(value));
    }

    method SetDateOrder(value: Input)
      modifies this`dateOrder, this`errors
      ensures dateOrder == Some(ConvertDate(value))
      ensures errors == old(errors) + ToSeq(Validate("date order", value, 0, false, true))
    {
      ValidateItem("date order", value, 0, false, true);
      dateOrder := Some(ConvertDate(value));
    }

    method SetText(value: string)
      modifies this`text, this`errors
      ensures text == Some(value)
      ensures errors == old(errors) + ToSeq(Validate("text", Text(value), 240, false, false))
    {
      ValidateItem("text", Text(value), 240, false, false);
      text := Some(value);
    }

    method SetBank(value: string)
      modifies this`bankShortcut, this`errors
      ensures bankShortcut == value
      ensures errors == old(errors) + ToSeq(Validate("bank shortcut", Text(value), 19, false, false))
    {
      ValidateItem("bank shortcut", Text(value), 19, false, false);
      bankShortcut := value;
    }

    /** `setPaymentType` only validates: `paymentType` keeps its value, and an
        unknown or null code adds one error. */
    method SetPaymentType(value: Option<string>)
      modifies this`errors
      ensures paymentType == old(paymentType)
      ensures errors == old(errors) + (if KnownPaymentType(value) then [] else [UnsupportedPaymentMessage(value)])
    {
      if !KnownPaymentType(value) {
        errors := errors + [UnsupportedPaymentMessage(value)];
      }
    }

    /** Deprecated alias of `SetPaymentTypeString`. */
    method SetPaymentTypeCzech(value: string)
      modifies this`paymentTypeSting, this`errors
      ensures paymentTypeSting == Some(value)
      ensures errors == old(errors) + ToSeq(Validate("payment type czech", Text(value), 20, false, false))
    {
      SetPaymentTypeString(value);
    }

    method SetPaymentTypeString(value: string)
      modifies this`paymentTypeSting, this`errors
      ensures paymentTypeSting == Some(value)
      ensures errors == old(errors) + ToSeq(Validate("payment type czech", Text(value), 20, false, false))
    {
      ValidateItem("payment type czech", Text(value), 20, false, false);
      paymentTypeSting := Some(value);
    }

    method SetAccounting(value: string)
      modifies this`accounting, this`errors
      ensures accounting == Some(value)
      ensures errors == old(errors) + ToSeq(Validate("accounting", Text(value), 19, false, false))
    {
      ValidateItem("accounting", Text(value), 19, false, false);
      accounting := Some(value);
    }

    /** Stores the note as given; `None` (PHP's null) unsets it, and the
        export then leaves `inv:note` out. */
    method SetNote(value: Option<string>)
      modifies this`note
      ensures note == value
    {
      note := value;
    }

    method SetContract(value: string)
      modifies this`contract, this`errors
      ensures contract == Some(value)
      ensures errors == old(errors) + ToSeq(Validate("contract", Text(value), 10, false, false))
    {
      ValidateItem("contract", Text(value), 10, false, false);
      contract := Some(value);
    }

    method SetSymbolicNumber(value: string)
      modifies this`symbolicNumber, this`errors
      ensures symbolicNumber == RemoveSpaces(value)
      ensures errors == old(errors) + ToSeq(Validate("symbolic number", Text(RemoveSpaces(value)), 20, true, false))
    {
      var v := RemoveSpaces(value);
      ValidateItem("symbolic number", Text(v), 20, true, false);
      symbolicNumber := v;
    }

    method SetPriceNone(v: Scalar)
      modifies this`priceNone
      ensures priceNone == v
    {
      priceNone := v;
    }

    method SetPriceLow(v: Scalar)
      modifies this`priceLow
      ensures priceLow == v
    {
      priceLow := v;
    }

    method SetPriceLowVAT(v: Scalar)
      modifies this`priceLowVAT
      ensures priceLowVAT == v
    {
      priceLowVAT := v;
    }

    method SetPriceLowSum(v: Scalar)
      modifies this`priceLowSum
      ensures priceLowSum == v
    {
      priceLowSum := v;
    }

    method SetPriceHigh(v: Scalar)
      modifies this`priceHigh
      ensures priceHigh == v
    {
      priceHigh := v;
    }

    method SetPriceHightVAT(v: Scalar)
      modifies this`priceHightVAT
      ensures priceHightVAT == v
    {
      priceHightVAT := v;
    }

    method SetPriceHighSum(v: Scalar)
      modifies this`priceHighSum
      ensures priceHighSum == v
    {
      priceHighSum := v;
    }

    /** `setProviderIdentity`: checks the company, ico, street, zip and city
        entries that are present (ico and zip after stripping whitespace) and
        stores the map with the stripped values. */
    method SetProviderIdentity(value: map<string, string>)
      modifies this`myIdentity, this`errors
      ensures myIdentity == NormalizedIdentity(value)
      ensures errors == old(errors) + IdentityErrors(value)
    {
      var v := value;
      ghost var id := NormalizedIdentity(value);
      CheckEntry(v, "company", "provider - company", 96, false);
      ghost var e1 := errors;
      if "ico" in v {
        v := v["ico" := RemoveSpaces(v["ico"])];
      }
      CheckEntry(v, "ico", "provider - ico", 15, true);
      CheckEntry(v, "street", "provider - street", 64, false);
      ghost var e3 := errors;
      if "zip" in v {
        v := v["zip" := RemoveSpaces(v["zip"])];
      }
      CheckEntry(v, "zip", "provider - zip", 15, true);
      CheckEntry(v, "city", "provider - city", 45, false);
      assert v == id;
      assert e1 == old(errors) + EntryErrors(id, "company", "provider - company", 96, false);
      assert e3 == e1 + EntryErrors(id, "ico", "provider - ico", 15, true)
        + EntryErrors(id, "street", "provider - street", 64, false);
      AppendFive(old(errors), EntryErrors(id, "company", "provider - company", 96, false),
        EntryErrors(id, "ico", "provider - ico", 15, true), EntryErrors(id, "street", "provider - street", 64, false),
        EntryErrors(id, "zip", "provider - zip", 15, true), EntryErrors(id, "city", "provider - city", 45, false));
      myIdentity := v;
    }

    /** `if (isset($value[key])) $this->validateItem(...)` */
    method CheckEntry(data: map<string, string>, key: string, name: string, maxLength: nat, isNumeric: bool)
      modifies this`errors
      ensures errors == old(errors) + EntryErrors(data, key, name, maxLength, isNumeric)
    {
      if key in data {
        ValidateItem(name, Text(data[key]), maxLength, isNumeric, false);
      }
    }

    method SetCustomerAddress(address: PartyAddress)
      modifies this`customerAddress
      ensures customerAddress == Some(address)
    {
      customerAddress := Some(address);
    }

    // ---------------------------------------------------------------------
    // Export

    /** `exportHeader`: the children of `inv:invoiceHeader`, in schema order. */
    function HeaderChildren(): seq<Node>
      reads this
      requires customerAddress.Some?
    {
      HeaderDates() + HeaderTerms() + HeaderParties()
    }

    /** The type, the requested number (the id), the variable symbol and the
        dates; the three optional dates only when not null. */
    function HeaderDates(): seq<Node>
      reads this
    {
      [ Leaf("inv:invoiceType", Some(invoiceType)),
        Element("inv:number", [Leaf("typ:numberRequested", Some(id))]),
        Leaf("inv:symVar", varNum),
        Leaf("inv:date", date) ]
      + Optional(dateTax.Some?, Leaf("inv:dateTax", dateTax))
      + Optional(dateDue.Some?, Leaf("inv:dateDue", dateDue))
      + Optional(dateAccounting.Some?, Leaf("inv:dateAccounting", dateAccounting))
    }

    /** VAT classification, accounting, text, payment, bank account, notes
        and contract; accounting, note and contract only when set. */
    function HeaderTerms(): seq<Node>
      reads this
    {
      [ClassificationVAT()]
      + Optional(accounting.Some?, Element("inv:accounting", [Leaf("typ:ids", accounting)]))
      + [ Leaf("inv:text", text),
          PaymentTypeElement(),
          Element("inv:account", [Leaf("typ:ids", Some(bankShortcut))]) ]
      + Optional(note.Some?, Leaf("inv:note", note))
      + [Leaf("inv:intNote", Some(IntNote))]
      + Optional(contract.Some?, Element("inv:contract", [Leaf("typ:ids", contract)]))
    }

    /** The constant symbol, the two parties, and the order reference when set. */
    function HeaderParties(): seq<Node>
      reads this
      requires customerAddress.Some?
    {
      [ Leaf("inv:symConst", Some(symbolicNumber)),
        Element("inv:myIdentity", [AddressElement(myIdentity, "address")]),
        Element("inv:partnerIdentity", customerAddress.value.exported) ]
      + Optional(numberOrder.Some?, Leaf("inv:numberOrder", numberOrder))
      + Optional(dateOrder.Some?, Leaf("inv:dateOrder", dateOrder))
    }

    /** The VAT classification: a domestic supply, or excluded from VAT. */
    function ClassificationVAT(): Node
      reads this
    {
      Element("inv:classificationVAT",
        if withVAT then [Leaf("typ:classificationVATType", Some("inland"))]
        else [Leaf("typ:ids", Some("UN")), Leaf("typ:classificationVATType", Some("nonSubsume"))])
    }

    function PaymentTypeElement(): Node
      reads this
    {
      Element("inv:paymentType",
        [Leaf("typ:paymentType", Some(paymentType))]
        + Optional(paymentTypeSting.Some?, Leaf("typ:ids", paymentTypeSting)))
    }

    function HeaderElement(): Node
      reads this
      requires customerAddress.Some?
    {
      Element("inv:invoiceHeader", HeaderChildren())
    }

    function DetailElement(): Node
      reads this
    {
      Element("inv:invoiceDetail", ItemElements(items))
    }

    /** The summary prices that are not null, in schema order. */
    function SummaryPrices(): seq<Node>
      reads this
    {
      Optional(IsSet(priceNone), Leaf("typ:priceNone", Rendered(priceNone)))
      + Optional(IsSet(priceLow), Leaf("typ:priceLow", Rendered(priceLow)))
      + Optional(IsSet(priceLowVAT), Leaf("typ:priceLowVAT", Rendered(priceLowVAT)))
      + Optional(IsSet(priceLowSum), Leaf("typ:priceLowSum", Rendered(priceLowSum)))
      + Optional(IsSet(priceHigh), Leaf("typ:priceHigh", Rendered(priceHigh)))
      + Optional(IsSet(priceHightVAT), Leaf("typ:priceHighVAT", Rendered(priceHightVAT)))
      + Optional(IsSet(priceHighSum), Leaf("typ:priceHighSum", Rendered(priceHighSum)))
    }

    /** `exportSummary` */
    function SummaryElement(): Node
      reads this
    {
      Element("inv:invoiceSummary",
        [ Leaf("inv:roundingDocument", Some(roundingDocument)),
          Leaf("inv:roundingVAT", Some(roundingVAT)),
          Element("inv:homeCurrency",
            SummaryPrices() + [Element("typ:round", [Leaf("typ:priceRound", Some("0"))])]) ])
    }

    /** The `inv:invoice` element `export` appends. */
    function InvoiceElement(): Node
      reads this
      requires customerAddress.Some?
    {
      Node("inv:invoice", None, [Attr("version", InvoiceVersion)],
        [HeaderElement()] + Optional(items != [], DetailElement()) + [SummaryElement()])
    }

    /** `exportDetail`: adds one `inv:invoiceItem` per item to `detail`, in order. */
    method ExportDetail(detail: Node) returns (r: Node)
      ensures r.name == detail.name && r.text == detail.text && r.attrs == detail.attrs
      ensures r.children == detail.children + ItemElements(items)
    {
      r := AppendEach(detail, items, ItemElement);
    }

    /** `export`: appends exactly one `inv:invoice` element to `xml` and leaves
        the children `xml` already had as they were. */
    method Export(xml: Node) returns (r: Node)
      requires customerAddress.Some?
      ensures r.name == xml.name && r.text == xml.text && r.attrs == xml.attrs
      ensures |r.children| == |xml.children| + 1
      ensures r.children[..|xml.children|] == xml.children
      ensures r.children[|xml.children|] == InvoiceElement()
    {
      var invoice := Node("inv:invoice", None, [Attr("version", InvoiceVersion)], []);
      invoice := AddChild(invoice, HeaderElement());
      if items != [] {
        var detail := ExportDetail(Element("inv:invoiceDetail", []));
        assert detail == DetailElement();
        invoice := AddChild(invoice, detail);
      }
      invoice := AddChild(invoice, SummaryElement());
      assert invoice == InvoiceElement();
      r := AddChild(xml, invoice);
    }
  }
}
