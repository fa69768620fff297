/** The order of the `inv:invoiceHeader` children and the condition under
    which each optional one is written. The header is three runs of
    children (dates, terms, parties); each run is described on its own and
    the header is their concatenation. */
module HeaderProperties {
  import opened Values
  import opened Xml
  import opened Pohoda

  /** Type, requested number, variable symbol and date, then the tax, due and accounting dates that are not null. */
  lemma HeaderDatesOrder(inv: Invoice)
    ensures Names(inv.HeaderDates()) ==
      ["inv:invoiceType", "inv:number", "inv:symVar", "inv:date"]
      + OptionalName(inv.dateTax.Some?, "inv:dateTax")
      + OptionalName(inv.dateDue.Some?, "inv:dateDue")
      + OptionalName(inv.dateAccounting.Some?, "inv:dateAccounting")
  {
    var p0 := [Leaf("inv:invoiceType", Some(inv.invoiceType)), Element("inv:number", [Leaf("typ:numberRequested", Some(inv.id))]), Leaf("inv:symVar", inv.varNum), Leaf("inv:date", inv.date)];
    var p1 := Optional(inv.dateTax.Some?, Leaf("inv:dateTax", inv.dateTax));
    var p2 := Optional(inv.dateDue.Some?, Leaf("inv:dateDue", inv.dateDue));
    var p3 := Optional(inv.dateAccounting.Some?, Leaf("inv:dateAccounting", inv.dateAccounting));
    NamesAt(p0);
    assert Names(p0) == ["inv:invoiceType", "inv:number", "inv:symVar", "inv:date"];
    NamesOptional(inv.dateTax.Some?, Leaf("inv:dateTax", inv.dateTax));
    NamesOptional(inv.dateDue.Some?, Leaf("inv:dateDue", inv.dateDue));
    NamesOptional(inv.dateAccounting.Some?, Leaf("inv:dateAccounting", inv.dateAccounting));
    NamesConcat(p0, p1);
    NamesConcat(p0 + p1, p2);
    NamesConcat(p0 + p1 + p2, p3);
  }

  lemma HeaderDatesHas(inv: Invoice, x: string)
    ensures x in Names(inv.HeaderDates()) <==>
      x == "inv:invoiceType" || x == "inv:number" || x == "inv:symVar" || x == "inv:date"
      || (inv.dateTax.Some? && x == "inv:dateTax")
      || (inv.dateDue.Some? && x == "inv:dateDue")
      || (inv.dateAccounting.Some? && x == "inv:dateAccounting")
  {
    var p0 := [Leaf("inv:invoiceType", Some(inv.invoiceType)), Element("inv:number", [Leaf("typ:numberRequested", Some(inv.id))]), Leaf("inv:symVar", inv.varNum), Leaf("inv:date", inv.date)];
    var p1 := Optional(inv.dateTax.Some?, Leaf("inv:dateTax", inv.dateTax));
    var p2 := Optional(inv.dateDue.Some?, Leaf("inv:dateDue", inv.dateDue));
    var p3 := Optional(inv.dateAccounting.Some?, Leaf("inv:dateAccounting", inv.dateAccounting));
    NamesAt(p0);
    assert Names(p0) == ["inv:invoiceType", "inv:number", "inv:symVar", "inv:date"];
    NameInOptional(inv.dateTax.Some?, Leaf("inv:dateTax", inv.dateTax), x);
    NameInOptional(inv.dateDue.Some?, Leaf("inv:dateDue", inv.dateDue), x);
    NameInOptional(inv.dateAccounting.Some?, Leaf("inv:dateAccounting", inv.dateAccounting), x);
    NameInConcat(p0, p1, x);
    NameInConcat(p0 + p1, p2, x);
    NameInConcat(p0 + p1 + p2, p3, x);
  }

  /** VAT classification, accounting when set, text, payment, bank account, note when set, the internal note, contract when set. */
  lemma HeaderTermsOrder(inv: Invoice)
    ensures Names(inv.HeaderTerms()) ==
      ["inv:classificationVAT"]
      + OptionalName(inv.accounting.Some?, "inv:accounting")
      + ["inv:text", "inv:paymentType", "inv:account"]
      + OptionalName(inv.note.Some?, "inv:note")
      + ["inv:intNote"]
      + OptionalName(inv.contract.Some?, "inv:contract")
  {
    var p0 := [inv.ClassificationVAT()];
    var p1 := Optional(inv.accounting.Some?, Element("inv:accounting", [Leaf("typ:ids", inv.accounting)]));
    var p2 := [Leaf("inv:text", inv.text), inv.PaymentTypeElement(), Element("inv:account", [Leaf("typ:ids", Some(inv.bankShortcut))])];
    var p3 := Optional(inv.note.Some?, Leaf("inv:note", inv.note));
    var p4 := [Leaf("inv:intNote", Some(IntNote))];
    var p5 := Optional(inv.contract.Some?, Element("inv:contract", [Leaf("typ:ids", inv.contract)]));
    NamesAt(p0);
    assert Names(p0) == ["inv:classificationVAT"];
    NamesOptional(inv.accounting.Some?, Element("inv:accounting", [Leaf("typ:ids", inv.accounting)]));
    NamesAt(p2);
    assert Names(p2) == ["inv:text", "inv:paymentType", "inv:account"];
    NamesOptional(inv.note.Some?, Leaf("inv:note", inv.note));
    NamesAt(p4);
    assert Names(p4) == ["inv:intNote"];
    NamesOptional(inv.contract.Some?, Element("inv:contract", [Leaf("typ:ids", inv.contract)]));
    NamesConcat(p0, p1);
    NamesConcat(p0 + p1, p2);
    NamesConcat(p0 + p1 + p2, p3);
    NamesConcat(p0 + p1 + p2 + p3, p4);
    NamesConcat(p0 + p1 + p2 + p3 + p4, p5);
  }

  lemma HeaderTermsHas(inv: Invoice, x: string)
    ensures x in Names(inv.HeaderTerms()) <==>
      x == "inv:classificationVAT"
      || (inv.accounting.Some? && x == "inv:accounting")
      || x == "inv:text" || x == "inv:paymentType" || x == "inv:account"
      || (inv.note.Some? && x == "inv:note")
      || x == "inv:intNote"
      || (inv.contract.Some? && x == "inv:contract")
  {
    var p0 := [inv.ClassificationVAT()];
    var p1 := Optional(inv.accounting.Some?, Element("inv:accounting", [Leaf("typ:ids", inv.accounting)]));
    var p2 := [Leaf("inv:text", inv.text), inv.PaymentTypeElement(), Element("inv:account", [Leaf("typ:ids", Some(inv.bankShortcut))])];
    var p3 := Optional(inv.note.Some?, Leaf("inv:note", inv.note));
    var p4 := [Leaf("inv:intNote", Some(IntNote))];
    var p5 := Optional(inv.contract.Some?, Element("inv:contract", [Leaf("typ:ids", inv.contract)]));
    NamesAt(p0);
    assert Names(p0) == ["inv:classificationVAT"];
    NameInOptional(inv.accounting.Some?, Element("inv:accounting", [Leaf("typ:ids", inv.accounting)]), x);
    NamesAt(p2);
    assert Names(p2) == ["inv:text", "inv:paymentType", "inv:account"];
    NameInOptional(inv.note.Some?, Leaf("inv:note", inv.note), x);
    NamesAt(p4);
    assert Names(p4) == ["inv:intNote"];
    NameInOptional(inv.contract.Some?, Element("inv:contract", [Leaf("typ:ids", inv.contract)]), x);
    NameInConcat(p0, p1, x);
    NameInConcat(p0 + p1, p2, x);
    NameInConcat(p0 + p1 + p2, p3, x);
    NameInConcat(p0 + p1 + p2 + p3, p4, x);
    NameInConcat(p0 + p1 + p2 + p3 + p4, p5, x);
  }

  /** Constant symbol, issuer, customer, then the order number and order date when set. */
  lemma HeaderPartiesOrder(inv: Invoice)
    requires inv.customerAddress.Some?
    ensures Names(inv.HeaderParties()) ==
      ["inv:symConst", "inv:myIdentity", "inv:partnerIdentity"]
      + OptionalName(inv.numberOrder.Some?, "inv:numberOrder")
      + OptionalName(inv.dateOrder.Some?, "inv:dateOrder")
  {
    var p0 := [Leaf("inv:symConst", Some(inv.symbolicNumber)), Element("inv:myIdentity", [AddressElement(inv.myIdentity, "address")]), Element("inv:partnerIdentity", inv.customerAddress.value.exported)];
    var p1 := Optional(inv.numberOrder.Some?, Leaf("inv:numberOrder", inv.numberOrder));
    var p2 := Optional(inv.dateOrder.Some?, Leaf("inv:dateOrder", inv.dateOrder));
    NamesAt(p0);
    assert Names(p0) == ["inv:symConst", "inv:myIdentity", "inv:partnerIdentity"];
    NamesOptional(inv.numberOrder.Some?, Leaf("inv:numberOrder", inv.numberOrder));
    NamesOptional(inv.dateOrder.Some?, Leaf("inv:dateOrder", inv.dateOrder));
    NamesConcat(p0, p1);
    NamesConcat(p0 + p1, p2);
  }

  lemma HeaderPartiesHas(inv: Invoice, x: string)
    requires inv.customerAddress.Some?
    ensures x in Names(inv.HeaderParties()) <==>
      x == "inv:symConst" || x == "inv:myIdentity" || x == "inv:partnerIdentity"
      || (inv.numberOrder.Some? && x == "inv:numberOrder")
      || (inv.dateOrder.Some? && x == "inv:dateOrder")
  {
    var p0 := [Leaf("inv:symConst", Some(inv.symbolicNumber)), Element("inv:myIdentity", [AddressElement(inv.myIdentity, "address")]), Element("inv:partnerIdentity", inv.customerAddress.value.exported)];
    var p1 := Optional(inv.numberOrder.Some?, Leaf("inv:numberOrder", inv.numberOrder));
    var p2 := Optional(inv.dateOrder.Some?, Leaf("inv:dateOrder", inv.dateOrder));
    NamesAt(p0);
    assert Names(p0) == ["inv:symConst", "inv:myIdentity", "inv:partnerIdentity"];
    NameInOptional(inv.numberOrder.Some?, Leaf("inv:numberOrder", inv.numberOrder), x);
    NameInOptional(inv.dateOrder.Some?, Leaf("inv:dateOrder", inv.dateOrder), x);
    NameInConcat(p0, p1, x);
    NameInConcat(p0 + p1, p2, x);
  }

  /** The whole header in document order: the dates, then the terms, then the
      parties, each optional child in its place when it is written. */
  lemma HeaderOrder(inv: Invoice)
    requires inv.customerAddress.Some?
    ensures Names(inv.HeaderChildren()) ==
      (["inv:invoiceType", "inv:number", "inv:symVar", "inv:date"]
       + OptionalName(inv.dateTax.Some?, "inv:dateTax")
       + OptionalName(inv.dateDue.Some?, "inv:dateDue")
       + OptionalName(inv.dateAccounting.Some?, "inv:dateAccounting"))
      + (["inv:classificationVAT"]
         + OptionalName(inv.accounting.Some?, "inv:accounting")
         + ["inv:text", "inv:paymentType", "inv:account"]
         + OptionalName(inv.note.Some?, "inv:note")
         + ["inv:intNote"]
         + OptionalName(inv.contract.Some?, "inv:contract"))
      + (["inv:symConst", "inv:myIdentity", "inv:partnerIdentity"]
         + OptionalName(inv.numberOrder.Some?, "inv:numberOrder")
         + OptionalName(inv.dateOrder.Some?, "inv:dateOrder"))
  {
    NamesConcat(inv.HeaderDates(), inv.HeaderTerms());
    NamesConcat(inv.HeaderDates() + inv.HeaderTerms(), inv.HeaderParties());
    HeaderDatesOrder(inv);
    HeaderTermsOrder(inv);
    HeaderPartiesOrder(inv);
  }

  lemma HeaderHas(inv: Invoice, x: string)
    requires inv.customerAddress.Some?
    ensures x in Names(inv.HeaderChildren()) <==>
      x in Names(inv.HeaderDates()) || x in Names(inv.HeaderTerms()) || x in Names(inv.HeaderParties())
  {
    NameInConcat(inv.HeaderDates(), inv.HeaderTerms(), x);
    NameInConcat(inv.HeaderDates() + inv.HeaderTerms(), inv.HeaderParties(), x);
  }

  /** The tax, due and accounting dates are written exactly when they are not null. */
  lemma HeaderDateGates(inv: Invoice)
    requires inv.customerAddress.Some?
    ensures var names := Names(inv.HeaderChildren());
      && ("inv:dateTax" in names <==> inv.dateTax.Some?)
      && ("inv:dateDue" in names <==> inv.dateDue.Some?)
      && ("inv:dateAccounting" in names <==> inv.dateAccounting.Some?)
  {
    HeaderHas(inv, "inv:dateTax");
    HeaderDatesHas(inv, "inv:dateTax");
    HeaderTermsHas(inv, "inv:dateTax");
    HeaderPartiesHas(inv, "inv:dateTax");
    HeaderHas(inv, "inv:dateDue");
    HeaderDatesHas(inv, "inv:dateDue");
    HeaderTermsHas(inv, "inv:dateDue");
    HeaderPartiesHas(inv, "inv:dateDue");
    HeaderHas(inv, "inv:dateAccounting");
    HeaderDatesHas(inv, "inv:dateAccounting");
    HeaderTermsHas(inv, "inv:dateAccounting");
    HeaderPartiesHas(inv, "inv:dateAccounting");
  }

  /** Accounting, note and contract are written exactly when they are set. */
  lemma HeaderTermGates(inv: Invoice)
    requires inv.customerAddress.Some?
    ensures var names := Names(inv.HeaderChildren());
      && ("inv:accounting" in names <==> inv.accounting.Some?)
      && ("inv:note" in names <==> inv.note.Some?)
      && ("inv:contract" in names <==> inv.contract.Some?)
  {
    HeaderHas(inv, "inv:accounting");
    HeaderDatesHas(inv, "inv:accounting");
    HeaderTermsHas(inv, "inv:accounting");
    HeaderPartiesHas(inv, "inv:accounting");
    HeaderHas(inv, "inv:note");
    HeaderDatesHas(inv, "inv:note");
    HeaderTermsHas(inv, "inv:note");
    HeaderPartiesHas(inv, "inv:note");
    HeaderHas(inv, "inv:contract");
    HeaderDatesHas(inv, "inv:contract");
    HeaderTermsHas(inv, "inv:contract");
    HeaderPartiesHas(inv, "inv:contract");
  }

  /** The order number and the order date are written exactly when they are set. */
  lemma HeaderOrderReferenceGates(inv: Invoice)
    requires inv.customerAddress.Some?
    ensures var names := Names(inv.HeaderChildren());
      && ("inv:numberOrder" in names <==> inv.numberOrder.Some?)
      && ("inv:dateOrder" in names <==> inv.dateOrder.Some?)
  {
    HeaderHas(inv, "inv:numberOrder");
    HeaderDatesHas(inv, "inv:numberOrder");
    HeaderTermsHas(inv, "inv:numberOrder");
    HeaderPartiesHas(inv, "inv:numberOrder");
    HeaderHas(inv, "inv:dateOrder");
    HeaderDatesHas(inv, "inv:dateOrder");
    HeaderTermsHas(inv, "inv:dateOrder");
    HeaderPartiesHas(inv, "inv:dateOrder");
  }

  /** The other twelve header children are written whatever the state; a
      variable symbol, date or text that was never set gives an empty element. */
  lemma HeaderAlwaysWritten(inv: Invoice)
    requires inv.customerAddress.Some?
    ensures var names := Names(inv.HeaderChildren());
      && "inv:invoiceType" in names && "inv:number" in names && "inv:symVar" in names
      && "inv:date" in names && "inv:classificationVAT" in names && "inv:text" in names
      && "inv:paymentType" in names && "inv:account" in names && "inv:intNote" in names
      && "inv:symConst" in names && "inv:myIdentity" in names && "inv:partnerIdentity" in names
  {
    HeaderDatesHas(inv, "inv:invoiceType");
    HeaderDatesHas(inv, "inv:number");
    HeaderDatesHas(inv, "inv:symVar");
    HeaderDatesHas(inv, "inv:date");
    HeaderTermsHas(inv, "inv:classificationVAT");
    HeaderTermsHas(inv, "inv:text");
    HeaderTermsHas(inv, "inv:paymentType");
    HeaderTermsHas(inv, "inv:account");
    HeaderTermsHas(inv, "inv:intNote");
    HeaderPartiesHas(inv, "inv:symConst");
    HeaderPartiesHas(inv, "inv:myIdentity");
    HeaderPartiesHas(inv, "inv:partnerIdentity");
    HeaderHas(inv, "inv:invoiceType");
    HeaderHas(inv, "inv:number");
    HeaderHas(inv, "inv:symVar");
    HeaderHas(inv, "inv:date");
    HeaderHas(inv, "inv:classificationVAT");
    HeaderHas(inv, "inv:text");
    HeaderHas(inv, "inv:paymentType");
    HeaderHas(inv, "inv:account");
    HeaderHas(inv, "inv:intNote");
    HeaderHas(inv, "inv:symConst");
    HeaderHas(inv, "inv:myIdentity");
    HeaderHas(inv, "inv:partnerIdentity");
  }

  /** With VAT the classification is the single domestic-supply marker;
      without, the identifier "UN" comes first and the non-subsumed marker
      second. */
  lemma ClassificationVATBranch(inv: Invoice)
    ensures var c := inv.ClassificationVAT();
      && c.name == "inv:classificationVAT"
      && (inv.withVAT ==> c.children == [Leaf("typ:classificationVATType", Some("inland"))])
      && (!inv.withVAT ==> (Names(c.children) == ["typ:ids", "typ:classificationVATType"]
                            && c.children[0].text == Some("UN")
                            && c.children[1].text == Some("nonSubsume")))
  {
    NamesAt(inv.ClassificationVAT().children);
  }

  /** The payment block holds the stored payment code, then the label only
      when one was set. */
  lemma PaymentBlock(inv: Invoice)
    ensures var p := inv.PaymentTypeElement();
      && p.name == "inv:paymentType"
      && |p.children| >= 1
      && p.children[0] == Leaf("typ:paymentType", Some(inv.paymentType))
      && (inv.paymentTypeSting.None? ==> |p.children| == 1)
      && (inv.paymentTypeSting.Some? ==> p.children[1..] == [Leaf("typ:ids", inv.paymentTypeSting)])
  {
    var p := inv.PaymentTypeElement();
    assert p.children == [Leaf("typ:paymentType", Some(inv.paymentType))]
      + Optional(inv.paymentTypeSting.Some?, Leaf("typ:ids", inv.paymentTypeSting));
  }

  /** The type is the invoice type, `inv:number` holds the id as the requested number, `inv:symVar` holds the variable number and `inv:date` the date of issue. */
  lemma HeaderDatesValues(inv: Invoice)
    ensures var ns := inv.HeaderDates();
      && Writes(ns, Leaf("inv:invoiceType", Some(inv.invoiceType)))
      && Writes(ns, Element("inv:number", [Leaf("typ:numberRequested", Some(inv.id))]))
      && Writes(ns, Leaf("inv:symVar", inv.varNum))
      && Writes(ns, Leaf("inv:date", inv.date))
  {
    var p0 := [Leaf("inv:invoiceType", Some(inv.invoiceType)), Element("inv:number", [Leaf("typ:numberRequested", Some(inv.id))]), Leaf("inv:symVar", inv.varNum), Leaf("inv:date", inv.date)];
    var p1 := Optional(inv.dateTax.Some?, Leaf("inv:dateTax", inv.dateTax));
    var p2 := Optional(inv.dateDue.Some?, Leaf("inv:dateDue", inv.dateDue));
    var p3 := Optional(inv.dateAccounting.Some?, Leaf("inv:dateAccounting", inv.dateAccounting));
    var n0 := Leaf("inv:invoiceType", Some(inv.invoiceType));
    assert Writes(p0 + p1 + p2 + p3, n0) by {
      assert Writes(p0, n0);
      WritesOptional(inv.dateTax.Some?, Leaf("inv:dateTax", inv.dateTax), n0);
      WritesOptional(inv.dateDue.Some?, Leaf("inv:dateDue", inv.dateDue), n0);
      WritesOptional(inv.dateAccounting.Some?, Leaf("inv:dateAccounting", inv.dateAccounting), n0);
      WritesJoin(p0, p1, n0);
      WritesJoin(p0 + p1, p2, n0);
      WritesJoin(p0 + p1 + p2, p3, n0);
    }
    var n1 := Element("inv:number", [Leaf("typ:numberRequested", Some(inv.id))]);
    assert Writes(p0 + p1 + p2 + p3, n1) by {
      assert Writes(p0, n1);
      WritesOptional(inv.dateTax.Some?, Leaf("inv:dateTax", inv.dateTax), n1);
      WritesOptional(inv.dateDue.Some?, Leaf("inv:dateDue", inv.dateDue), n1);
      WritesOptional(inv.dateAccounting.Some?, Leaf("inv:dateAccounting", inv.dateAccounting), n1);
      WritesJoin(p0, p1, n1);
      WritesJoin(p0 + p1, p2, n1);
      WritesJoin(p0 + p1 + p2, p3, n1);
    }
    var n2 := Leaf("inv:symVar", inv.varNum);
    assert Writes(p0 + p1 + p2 + p3, n2) by {
      assert Writes(p0, n2);
      WritesOptional(inv.dateTax.Some?, Leaf("inv:dateTax", inv.dateTax), n2);
      WritesOptional(inv.dateDue.Some?, Leaf("inv:dateDue", inv.dateDue), n2);
      WritesOptional(inv.dateAccounting.Some?, Leaf("inv:dateAccounting", inv.dateAccounting), n2);
      WritesJoin(p0, p1, n2);
      WritesJoin(p0 + p1, p2, n2);
      WritesJoin(p0 + p1 + p2, p3, n2);
    }
    var n3 := Leaf("inv:date", inv.date);
    assert Writes(p0 + p1 + p2 + p3, n3) by {
      assert Writes(p0, n3);
      WritesOptional(inv.dateTax.Some?, Leaf("inv:dateTax", inv.dateTax), n3);
      WritesOptional(inv.dateDue.Some?, Leaf("inv:dateDue", inv.dateDue), n3);
      WritesOptional(inv.dateAccounting.Some?, Leaf("inv:dateAccounting", inv.dateAccounting), n3);
      WritesJoin(p0, p1, n3);
      WritesJoin(p0 + p1, p2, n3);
      WritesJoin(p0 + p1 + p2, p3, n3);
    }
  }

  /** The tax, due and accounting dates each carry their own property. */
  lemma HeaderOptionalDatesValues(inv: Invoice)
    ensures var ns := inv.HeaderDates();
      && Writes(ns, Leaf("inv:dateTax", inv.dateTax))
      && Writes(ns, Leaf("inv:dateDue", inv.dateDue))
      && Writes(ns, Leaf("inv:dateAccounting", inv.dateAccounting))
  {
    var p0 := [Leaf("inv:invoiceType", Some(inv.invoiceType)), Element("inv:number", [Leaf("typ:numberRequested", Some(inv.id))]), Leaf("inv:symVar", inv.varNum), Leaf("inv:date", inv.date)];
    var p1 := Optional(inv.dateTax.Some?, Leaf("inv:dateTax", inv.dateTax));
    var p2 := Optional(inv.dateDue.Some?, Leaf("inv:dateDue", inv.dateDue));
    var p3 := Optional(inv.dateAccounting.Some?, Leaf("inv:dateAccounting", inv.dateAccounting));
    var n0 := Leaf("inv:dateTax", inv.dateTax);
    assert Writes(p0 + p1 + p2 + p3, n0) by {
      assert Writes(p0, n0);
      WritesOptional(inv.dateTax.Some?, Leaf("inv:dateTax", inv.dateTax), n0);
      WritesOptional(inv.dateDue.Some?, Leaf("inv:dateDue", inv.dateDue), n0);
      WritesOptional(inv.dateAccounting.Some?, Leaf("inv:dateAccounting", inv.dateAccounting), n0);
      WritesJoin(p0, p1, n0);
      WritesJoin(p0 + p1, p2, n0);
      WritesJoin(p0 + p1 + p2, p3, n0);
    }
    var n1 := Leaf("inv:dateDue", inv.dateDue);
    assert Writes(p0 + p1 + p2 + p3, n1) by {
      assert Writes(p0, n1);
      WritesOptional(inv.dateTax.Some?, Leaf("inv:dateTax", inv.dateTax), n1);
      WritesOptional(inv.dateDue.Some?, Leaf("inv:dateDue", inv.dateDue), n1);
      WritesOptional(inv.dateAccounting.Some?, Leaf("inv:dateAccounting", inv.dateAccounting), n1);
      WritesJoin(p0, p1, n1);
      WritesJoin(p0 + p1, p2, n1);
      WritesJoin(p0 + p1 + p2, p3, n1);
    }
    var n2 := Leaf("inv:dateAccounting", inv.dateAccounting);
    assert Writes(p0 + p1 + p2 + p3, n2) by {
      assert Writes(p0, n2);
      WritesOptional(inv.dateTax.Some?, Leaf("inv:dateTax", inv.dateTax), n2);
      WritesOptional(inv.dateDue.Some?, Leaf("inv:dateDue", inv.dateDue), n2);
      WritesOptional(inv.dateAccounting.Some?, Leaf("inv:dateAccounting", inv.dateAccounting), n2);
      WritesJoin(p0, p1, n2);
      WritesJoin(p0 + p1, p2, n2);
      WritesJoin(p0 + p1 + p2, p3, n2);
    }
  }

  /** The accounting code and the bank shortcut sit in a `typ:ids` child, and `inv:text` holds the text. */
  lemma HeaderTermsValues(inv: Invoice)
    ensures var ns := inv.HeaderTerms();
      && Writes(ns, Element("inv:accounting", [Leaf("typ:ids", inv.accounting)]))
      && Writes(ns, Leaf("inv:text", inv.text))
      && Writes(ns, Element("inv:account", [Leaf("typ:ids", Some(inv.bankShortcut))]))
  {
    var p0 := [inv.ClassificationVAT()];
    var p1 := Optional(inv.accounting.Some?, Element("inv:accounting", [Leaf("typ:ids", inv.accounting)]));
    var p2 := [Leaf("inv:text", inv.text), inv.PaymentTypeElement(), Element("inv:account", [Leaf("typ:ids", Some(inv.bankShortcut))])];
    var p3 := Optional(inv.note.Some?, Leaf("inv:note", inv.note));
    var p4 := [Leaf("inv:intNote", Some(IntNote))];
    var p5 := Optional(inv.contract.Some?, Element("inv:contract", [Leaf("typ:ids", inv.contract)]));
    var n0 := Element("inv:accounting", [Leaf("typ:ids", inv.accounting)]);
    assert Writes(p0 + p1 + p2 + p3 + p4 + p5, n0) by {
      assert Writes(p0, n0);
      WritesOptional(inv.accounting.Some?, Element("inv:accounting", [Leaf("typ:ids", inv.accounting)]), n0);
      assert Writes(p2, n0);
      WritesOptional(inv.note.Some?, Leaf("inv:note", inv.note), n0);
      assert Writes(p4, n0);
      WritesOptional(inv.contract.Some?, Element("inv:contract", [Leaf("typ:ids", inv.contract)]), n0);
      WritesJoin(p0, p1, n0);
      WritesJoin(p0 + p1, p2, n0);
      WritesJoin(p0 + p1 + p2, p3, n0);
      WritesJoin(p0 + p1 + p2 + p3, p4, n0);
      WritesJoin(p0 + p1 + p2 + p3 + p4, p5, n0);
    }
    var n1 := Leaf("inv:text", inv.text);
    assert Writes(p0 + p1 + p2 + p3 + p4 + p5, n1) by {
      assert Writes(p0, n1);
      WritesOptional(inv.accounting.Some?, Element("inv:accounting", [Leaf("typ:ids", inv.accounting)]), n1);
      assert Writes(p2, n1);
      WritesOptional(inv.note.Some?, Leaf("inv:note", inv.note), n1);
      assert Writes(p4, n1);
      WritesOptional(inv.contract.Some?, Element("inv:contract", [Leaf("typ:ids", inv.contract)]), n1);
      WritesJoin(p0, p1, n1);
      WritesJoin(p0 + p1, p2, n1);
      WritesJoin(p0 + p1 + p2, p3, n1);
      WritesJoin(p0 + p1 + p2 + p3, p4, n1);
      WritesJoin(p0 + p1 + p2 + p3 + p4, p5, n1);
    }
    var n2 := Element("inv:account", [Leaf("typ:ids", Some(inv.bankShortcut))]);
    assert Writes(p0 + p1 + p2 + p3 + p4 + p5, n2) by {
      assert Writes(p0, n2);
      WritesOptional(inv.accounting.Some?, Element("inv:accounting", [Leaf("typ:ids", inv.accounting)]), n2);
      assert Writes(p2, n2);
      WritesOptional(inv.note.Some?, Leaf("inv:note", inv.note), n2);
      assert Writes(p4, n2);
      WritesOptional(inv.contract.Some?, Element("inv:contract", [Leaf("typ:ids", inv.contract)]), n2);
      WritesJoin(p0, p1, n2);
      WritesJoin(p0 + p1, p2, n2);
      WritesJoin(p0 + p1 + p2, p3, n2);
      WritesJoin(p0 + p1 + p2 + p3, p4, n2);
      WritesJoin(p0 + p1 + p2 + p3 + p4, p5, n2);
    }
  }

  /** `inv:note` holds the note, `inv:intNote` the fixed import remark, and the contract sits in a `typ:ids` child. */
  lemma HeaderNotesValues(inv: Invoice)
    ensures var ns := inv.HeaderTerms();
      && Writes(ns, Leaf("inv:note", inv.note))
      && Writes(ns, Leaf("inv:intNote", Some(IntNote)))
      && Writes(ns, Element("inv:contract", [Leaf("typ:ids", inv.contract)]))
  {
    var p0 := [inv.ClassificationVAT()];
    var p1 := Optional(inv.accounting.Some?, Element("inv:accounting", [Leaf("typ:ids", inv.accounting)]));
    var p2 := [Leaf("inv:text", inv.text), inv.PaymentTypeElement(), Element("inv:account", [Leaf("typ:ids", Some(inv.bankShortcut))])];
    var p3 := Optional(inv.note.Some?, Leaf("inv:note", inv.note));
    var p4 := [Leaf("inv:intNote", Some(IntNote))];
    var p5 := Optional(inv.contract.Some?, Element("inv:contract", [Leaf("typ:ids", inv.contract)]));
    var n0 := Leaf("inv:note", inv.note);
    assert Writes(p0 + p1 + p2 + p3 + p4 + p5, n0) by {
      assert Writes(p0, n0);
      WritesOptional(inv.accounting.Some?, Element("inv:accounting", [Leaf("typ:ids", inv.accounting)]), n0);
      assert Writes(p2, n0);
      WritesOptional(inv.note.Some?, Leaf("inv:note", inv.note), n0);
      assert Writes(p4, n0);
      WritesOptional(inv.contract.Some?, Element("inv:contract", [Leaf("typ:ids", inv.contract)]), n0);
      WritesJoin(p0, p1, n0);
      WritesJoin(p0 + p1, p2, n0);
      WritesJoin(p0 + p1 + p2, p3, n0);
      WritesJoin(p0 + p1 + p2 + p3, p4, n0);
      WritesJoin(p0 + p1 + p2 + p3 + p4, p5, n0);
    }
    var n1 := Leaf("inv:intNote", Some(IntNote));
    assert Writes(p0 + p1 + p2 + p3 + p4 + p5, n1) by {
      assert Writes(p0, n1);
      WritesOptional(inv.accounting.Some?, Element("inv:accounting", [Leaf("typ:ids", inv.accounting)]), n1);
      assert Writes(p2, n1);
      WritesOptional(inv.note.Some?, Leaf("inv:note", inv.note), n1);
      assert Writes(p4, n1);
      WritesOptional(inv.contract.Some?, Element("inv:contract", [Leaf("typ:ids", inv.contract)]), n1);
      WritesJoin(p0, p1, n1);
      WritesJoin(p0 + p1, p2, n1);
      WritesJoin(p0 + p1 + p2, p3, n1);
      WritesJoin(p0 + p1 + p2 + p3, p4, n1);
      WritesJoin(p0 + p1 + p2 + p3 + p4, p5, n1);
    }
    var n2 := Element("inv:contract", [Leaf("typ:ids", inv.contract)]);
    assert Writes(p0 + p1 + p2 + p3 + p4 + p5, n2) by {
      assert Writes(p0, n2);
      WritesOptional(inv.accounting.Some?, Element("inv:accounting", [Leaf("typ:ids", inv.accounting)]), n2);
      assert Writes(p2, n2);
      WritesOptional(inv.note.Some?, Leaf("inv:note", inv.note), n2);
      assert Writes(p4, n2);
      WritesOptional(inv.contract.Some?, Element("inv:contract", [Leaf("typ:ids", inv.contract)]), n2);
      WritesJoin(p0, p1, n2);
      WritesJoin(p0 + p1, p2, n2);
      WritesJoin(p0 + p1 + p2, p3, n2);
      WritesJoin(p0 + p1 + p2 + p3, p4, n2);
      WritesJoin(p0 + p1 + p2 + p3 + p4, p5, n2);
    }
  }

  /** `inv:symConst` holds the constant symbol, the issuer is the identity map written as a `typ:address`, the customer is what its address object exports, and the order number and order date carry their properties. */
  lemma HeaderPartiesValues(inv: Invoice)
    requires inv.customerAddress.Some?
    ensures var ns := inv.HeaderParties();
      && Writes(ns, Leaf("inv:symConst", Some(inv.symbolicNumber)))
      && Writes(ns, Element("inv:myIdentity", [AddressElement(inv.myIdentity, "address")]))
      && Writes(ns, Element("inv:partnerIdentity", inv.customerAddress.value.exported))
      && Writes(ns, Leaf("inv:numberOrder", inv.numberOrder))
      && Writes(ns, Leaf("inv:dateOrder", inv.dateOrder))
  {
    var p0 := [Leaf("inv:symConst", Some(inv.symbolicNumber)), Element("inv:myIdentity", [AddressElement(inv.myIdentity, "address")]), Element("inv:partnerIdentity", inv.customerAddress.value.exported)];
    var p1 := Optional(inv.numberOrder.Some?, Leaf("inv:numberOrder", inv.numberOrder));
    var p2 := Optional(inv.dateOrder.Some?, Leaf("inv:dateOrder", inv.dateOrder));
    var n0 := Leaf("inv:symConst", Some(inv.symbolicNumber));
    assert Writes(p0 + p1 + p2, n0) by {
      assert Writes(p0, n0);
      WritesOptional(inv.numberOrder.Some?, Leaf("inv:numberOrder", inv.numberOrder), n0);
      WritesOptional(inv.dateOrder.Some?, Leaf("inv:dateOrder", inv.dateOrder), n0);
      WritesJoin(p0, p1, n0);
      WritesJoin(p0 + p1, p2, n0);
    }
    var n1 := Element("inv:myIdentity", [AddressElement(inv.myIdentity, "address")]);
    assert Writes(p0 + p1 + p2, n1) by {
      assert Writes(p0, n1);
      WritesOptional(inv.numberOrder.Some?, Leaf("inv:numberOrder", inv.numberOrder), n1);
      WritesOptional(inv.dateOrder.Some?, Leaf("inv:dateOrder", inv.dateOrder), n1);
      WritesJoin(p0, p1, n1);
      WritesJoin(p0 + p1, p2, n1);
    }
    var n2 := Element("inv:partnerIdentity", inv.customerAddress.value.exported);
    assert Writes(p0 + p1 + p2, n2) by {
      assert Writes(p0, n2);
      WritesOptional(inv.numberOrder.Some?, Leaf("inv:numberOrder", inv.numberOrder), n2);
      WritesOptional(inv.dateOrder.Some?, Leaf("inv:dateOrder", inv.dateOrder), n2);
      WritesJoin(p0, p1, n2);
      WritesJoin(p0 + p1, p2, n2);
    }
    var n3 := Leaf("inv:numberOrder", inv.numberOrder);
    assert Writes(p0 + p1 + p2, n3) by {
      assert Writes(p0, n3);
      WritesOptional(inv.numberOrder.Some?, Leaf("inv:numberOrder", inv.numberOrder), n3);
      WritesOptional(inv.dateOrder.Some?, Leaf("inv:dateOrder", inv.dateOrder), n3);
      WritesJoin(p0, p1, n3);
      WritesJoin(p0 + p1, p2, n3);
    }
    var n4 := Leaf("inv:dateOrder", inv.dateOrder);
    assert Writes(p0 + p1 + p2, n4) by {
      assert Writes(p0, n4);
      WritesOptional(inv.numberOrder.Some?, Leaf("inv:numberOrder", inv.numberOrder), n4);
      WritesOptional(inv.dateOrder.Some?, Leaf("inv:dateOrder", inv.dateOrder), n4);
      WritesJoin(p0, p1, n4);
      WritesJoin(p0 + p1, p2, n4);
    }
  }
}
