/** What the builder promises about its soft errors: the order of the
    required-property messages, one message per failed setter call, the
    normalised identity, and the payment-type message. */
module ValidationProperties {
  import opened Values
  import opened Strings
  import opened Dates
  import opened Validators
  import opened Pohoda

  /** `checkRequired` records one message per missing required property, in
      the order date, varNum, text. */
  lemma RequiredErrorsInOrder(inv: Invoice)
    ensures inv.MissingRequired(Required) ==
      (if inv.date.None? then [MissingPrefix + "date"] else [])
      + (if inv.varNum.None? then [MissingPrefix + "varNum"] else [])
      + (if inv.text.None? then [MissingPrefix + "text"] else [])
  {
    var r := Required;
    assert r[..3] == r;
    assert r[..3][..2] == r[..2] == ["date", "varNum"];
    assert r[..2][..1] == r[..1] == ["date"];
    assert r[..1][..0] == [];
    assert inv.MissingRequired(r[..1]) == (if inv.date.None? then [MissingPrefix + "date"] else []);
  }

  /** A setter call records at most one message, and it starts with the
      field's label and a space. */
  lemma AtMostOneErrorPerCall(name: string, v: Input, maxLength: nat, isNumeric: bool, isDate: bool)
    requires v.DateTime? ==> maxLength == 0 && !isNumeric
    ensures var e := ToSeq(Validate(name, v, maxLength, isNumeric, isDate));
      |e| <= 1 && (e != [] ==> |e[0]| > |name| && e[0][..|name| + 1] == name + " ")
  {
    var r := Validate(name, v, maxLength, isNumeric, isDate);
    if r.Some? {
      var cs := Requested(maxLength, isNumeric, isDate);
      var k :| 0 <= k < |cs| && !Passes(cs[k], v) && r.value == name + " " + Message(cs[k]);
      assert r.value[..|name| + 1] == name + " ";
    }
  }

  /** The variable number is accepted exactly when, once stripped of
      whitespace, it is at most 20 characters long and all digits. */
  lemma VariableNumberAccepted(value: string)
    ensures var v := RemoveSpaces(value);
      Validate("variable number", Text(v), 20, true, false).None? <==> |v| <= 20 && AllDigits(v)
  {
    var v := RemoveSpaces(value);
    assert Requested(20, true, false) == [MaxLength(20), Numeric];
  }

  /** Storing an identity that `setProviderIdentity` already normalised
      changes nothing more. */
  lemma NormalizedIdentityIdempotent(value: map<string, string>)
    ensures NormalizedIdentity(NormalizedIdentity(value)) == NormalizedIdentity(value)
  {
    var n := NormalizedIdentity(value);
    forall k | k in n
      ensures NormalizedIdentity(n)[k] == n[k]
    {
      if k == "ico" || k == "zip" {
        RemoveSpacesIdempotent(value[k]);
      }
    }
  }

  /** `setProviderIdentity` records at most one message per checked entry. */
  lemma IdentityErrorsBound(value: map<string, string>)
    ensures |IdentityErrors(value)| <= 5
    ensures (forall k :: k in value ==> k !in ["company", "ico", "street", "zip", "city"]) ==> IdentityErrors(value) == []
  {
  }

  /** The codes `setPaymentType` accepts are exactly the nine the corrected
      message lists. */
  lemma KnownCodesAreListed(v: Option<string>)
    ensures KnownPaymentType(v) <==> v.Some? && v.value in PaymentCodes
  {
    assert PaymentLabels.Keys == set c | c in PaymentCodes;
  }

  /** The message the source builds for an unknown payment code lists no code
      at all, while the corrected message lists every one of them. */
  lemma AsWrittenListsNoCode(v: Option<string>)
    ensures var p := |UnsupportedPrefix(v)|;
      forall c :: c in PaymentCodes ==> !Contains(UnsupportedPaymentMessageAsWritten(v)[p..], c)
    ensures UnsupportedPaymentMessageAsWritten(v) != UnsupportedPaymentMessage(v)
  {
    var p := |UnsupportedPrefix(v)|;
    forall c | c in PaymentCodes
      ensures !Contains(UnsupportedPaymentMessageAsWritten(v)[p..], c)
    {
      assert |c| > 0;
      assert |UnsupportedPaymentMessageAsWritten(v)[p..]| == 0;
    }
  }

  // -----------------------------------------------------------------------
  // Client scenarios

  /** A new invoice is not valid, and its errors are the three missing
      required properties, prefixed with the id. */
  method NewInvoiceIsInvalid(id: string) returns (valid: bool, errs: seq<string>)
    ensures !valid
    ensures errs == [id + ":" + (MissingPrefix + "date"), id + ":" + (MissingPrefix + "varNum"),
                     id + ":" + (MissingPrefix + "text")]
  {
    var inv := new Invoice(id);
    valid := inv.IsValid();
    RequiredErrorsInOrder(inv);
    assert inv.errors + inv.reqErrors == [MissingPrefix + "date", MissingPrefix + "varNum", MissingPrefix + "text"];
    errs := inv.GetErrors();
  }

  /** `getErrors` reports what the last `isValid` found: setting the text
      afterwards leaves the report unchanged, the missing text included. */
  method StaleRequiredErrors(id: string) returns (before: seq<string>, after: seq<string>)
    ensures before == after
    ensures |after| == 3 && after[2] == id + ":" + (MissingPrefix + "text")
  {
    var inv := new Invoice(id);
    var _ := inv.IsValid();
    RequiredErrorsInOrder(inv);
    before := inv.GetErrors();
    AcceptedText();
    inv.SetText("Faktura");
    after := inv.GetErrors();
  }

  /** Once `isValid` runs again after the text is set, only the date and the
      variable number are reported missing. */
  method RecheckedErrors(id: string) returns (errs: seq<string>)
    ensures errs == [id + ":" + (MissingPrefix + "date"), id + ":" + (MissingPrefix + "varNum")]
  {
    var inv := new Invoice(id);
    AcceptedText();
    inv.SetText("Faktura");
    var _ := inv.IsValid();
    RequiredErrorsInOrder(inv);
    assert inv.errors + inv.reqErrors == [MissingPrefix + "date", MissingPrefix + "varNum"];
    errs := inv.GetErrors();
  }

  lemma AcceptedText()
    ensures Validate("text", Text("Faktura"), 240, false, false) == None
  {
    assert Requested(240, false, false) == [MaxLength(240)];
  }

  /** A variable number that fails its check is stored all the same, stripped
      of whitespace, and one message is recorded. */
  method InvalidValueIsStored(id: string) returns (stored: Option<string>, errs: seq<string>)
    ensures stored == Some("1A")
    ensures errs == ["variable number is not numeric"]
  {
    var inv := new Invoice(id);
    StrippedExample();
    RejectedExample();
    inv.SetVariableNumber("1 A");
    stored := inv.varNum;
    errs := inv.errors;
  }

  lemma StrippedExample()
    ensures RemoveSpaces("1 A") == "1A"
  {
    assert RemoveSpaces("A") == "A";
    assert RemoveSpaces(" A") == "A";
  }

  lemma RejectedExample()
    ensures Validate("variable number", Text("1A"), 20, true, false) == Some("variable number is not numeric")
  {
    assert !IsDigit("1A"[1]);
    assert !Passes(Numeric, Text("1A"));
    assert "variable number" + " " + Message(Numeric) == "variable number is not numeric";
  }

  /** Whitespace inside a variable number is dropped before the check, so a
      spaced-out number is stored compactly and accepted. */
  method SpacedNumberAccepted(id: string) returns (stored: Option<string>, errs: seq<string>)
    ensures stored == Some("1234")
    ensures errs == []
  {
    var inv := new Invoice(id);
    SpacedNumber();
    AcceptedNumber();
    inv.SetVariableNumber(" 12 34 ");
    stored := inv.varNum;
    errs := inv.errors;
  }

  lemma SpacedNumber()
    ensures RemoveSpaces(" 12 34 ") == "1234"
  {
    assert " 12 34 " == " 12" + " 34 ";
    RemoveSpacesConcat(" 12", " 34 ");
    assert RemoveSpaces("2") == "2";
    assert RemoveSpaces("12") == "12";
    assert RemoveSpaces(" 12") == "12";
    assert RemoveSpaces(" ") == "";
    assert RemoveSpaces("4 ") == "4";
    assert RemoveSpaces("34 ") == "34";
    assert RemoveSpaces(" 34 ") == "34";
  }

  lemma AcceptedNumber()
    ensures Validate("variable number", Text("1234"), 20, true, false) == None
  {
    assert Requested(20, true, false) == [MaxLength(20), Numeric];
    assert AllDigits("1234");
  }

  /** `setPaymentType` accepts a known code but does not store it: the
      invoice still exports the default code. */
  method PaymentTypeNotStored(id: string) returns (code: string, errs: seq<string>)
    ensures code == "draft" && errs == []
  {
    var inv := new Invoice(id);
    inv.SetPaymentType(Some("cash"));
    code := inv.PaymentTypeElement().children[0].text.value;
    errs := inv.errors;
  }
}
