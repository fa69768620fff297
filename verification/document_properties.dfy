/** The `inv:invoice` element as a whole and its `inv:invoiceSummary`: which
    sections it holds, and which summary prices are written. */
module DocumentProperties {
  import opened Values
  import opened Xml
  import opened Pohoda
  import ItemProperties

  /** `export` writes one `inv:invoice` of version 2.0: the header first, the
      detail only when there are items, the summary last. */
  lemma InvoiceLayout(inv: Invoice)
    requires inv.customerAddress.Some?
    ensures var n := inv.InvoiceElement();
      && n.name == "inv:invoice" && n.attrs == [Attr("version", "2.0")]
      && Names(n.children) == ["inv:invoiceHeader"]
           + (if inv.items == [] then [] else ["inv:invoiceDetail"]) + ["inv:invoiceSummary"]
      && n.children[0] == inv.HeaderElement()
      && n.children[|n.children| - 1] == inv.SummaryElement()
      && (inv.items != [] ==> n.children[1] == inv.DetailElement())
  {
    NamesAt(inv.InvoiceElement().children);
  }

  /** The summary holds the document rounding "math2one", the VAT rounding
      "none" and the home-currency block, in that order; the block holds the
      prices that are set and closes with a rounding total fixed at zero. */
  lemma SummaryLayout(inv: Invoice)
    ensures var s := inv.SummaryElement();
      && s.name == "inv:invoiceSummary"
      && Names(s.children) == ["inv:roundingDocument", "inv:roundingVAT", "inv:homeCurrency"]
      && s.children[0] == Leaf("inv:roundingDocument", Some("math2one"))
      && s.children[1] == Leaf("inv:roundingVAT", Some("none"))
      && var hc := s.children[2];
      && Names(hc.children) == Names(inv.SummaryPrices()) + ["typ:round"]
      && hc.children[|hc.children| - 1] == Element("typ:round", [Leaf("typ:priceRound", Some("0"))])
  {
    NamesAt(inv.SummaryElement().children);
    NamesConcat(inv.SummaryPrices(), [Element("typ:round", [Leaf("typ:priceRound", Some("0"))])]);
  }

  /** The prices follow the schema order none, low, low VAT, low total,
      high, high VAT, high total, each only when it is not null. */
  lemma SummaryPriceOrder(inv: Invoice)
    ensures Names(inv.SummaryPrices()) ==
      OptionalName(IsSet(inv.priceNone), "typ:priceNone")
      + OptionalName(IsSet(inv.priceLow), "typ:priceLow")
      + OptionalName(IsSet(inv.priceLowVAT), "typ:priceLowVAT")
      + OptionalName(IsSet(inv.priceLowSum), "typ:priceLowSum")
      + OptionalName(IsSet(inv.priceHigh), "typ:priceHigh")
      + OptionalName(IsSet(inv.priceHightVAT), "typ:priceHighVAT")
      + OptionalName(IsSet(inv.priceHighSum), "typ:priceHighSum")
  {
    var o0 := Optional(IsSet(inv.priceNone), Leaf("typ:priceNone", Rendered(inv.priceNone)));
    var o1 := Optional(IsSet(inv.priceLow), Leaf("typ:priceLow", Rendered(inv.priceLow)));
    var o2 := Optional(IsSet(inv.priceLowVAT), Leaf("typ:priceLowVAT", Rendered(inv.priceLowVAT)));
    var o3 := Optional(IsSet(inv.priceLowSum), Leaf("typ:priceLowSum", Rendered(inv.priceLowSum)));
    var o4 := Optional(IsSet(inv.priceHigh), Leaf("typ:priceHigh", Rendered(inv.priceHigh)));
    var o5 := Optional(IsSet(inv.priceHightVAT), Leaf("typ:priceHighVAT", Rendered(inv.priceHightVAT)));
    var o6 := Optional(IsSet(inv.priceHighSum), Leaf("typ:priceHighSum", Rendered(inv.priceHighSum)));
    NamesOptional(IsSet(inv.priceNone), Leaf("typ:priceNone", Rendered(inv.priceNone)));
    NamesOptional(IsSet(inv.priceLow), Leaf("typ:priceLow", Rendered(inv.priceLow)));
    NamesOptional(IsSet(inv.priceLowVAT), Leaf("typ:priceLowVAT", Rendered(inv.priceLowVAT)));
    NamesOptional(IsSet(inv.priceLowSum), Leaf("typ:priceLowSum", Rendered(inv.priceLowSum)));
    NamesOptional(IsSet(inv.priceHigh), Leaf("typ:priceHigh", Rendered(inv.priceHigh)));
    NamesOptional(IsSet(inv.priceHightVAT), Leaf("typ:priceHighVAT", Rendered(inv.priceHightVAT)));
    NamesOptional(IsSet(inv.priceHighSum), Leaf("typ:priceHighSum", Rendered(inv.priceHighSum)));
    NamesConcat(o0, o1);
    NamesConcat(o0 + o1, o2);
    NamesConcat(o0 + o1 + o2, o3);
    NamesConcat(o0 + o1 + o2 + o3, o4);
    NamesConcat(o0 + o1 + o2 + o3 + o4, o5);
    NamesConcat(o0 + o1 + o2 + o3 + o4 + o5, o6);
  }

  lemma SummaryPriceHas(inv: Invoice, x: string)
    ensures x in Names(inv.SummaryPrices()) <==>
      (IsSet(inv.priceNone) && x == "typ:priceNone")
      || (IsSet(inv.priceLow) && x == "typ:priceLow")
      || (IsSet(inv.priceLowVAT) && x == "typ:priceLowVAT")
      || (IsSet(inv.priceLowSum) && x == "typ:priceLowSum")
      || (IsSet(inv.priceHigh) && x == "typ:priceHigh")
      || (IsSet(inv.priceHightVAT) && x == "typ:priceHighVAT")
      || (IsSet(inv.priceHighSum) && x == "typ:priceHighSum")
  {
    var o0 := Optional(IsSet(inv.priceNone), Leaf("typ:priceNone", Rendered(inv.priceNone)));
    var o1 := Optional(IsSet(inv.priceLow), Leaf("typ:priceLow", Rendered(inv.priceLow)));
    var o2 := Optional(IsSet(inv.priceLowVAT), Leaf("typ:priceLowVAT", Rendered(inv.priceLowVAT)));
    var o3 := Optional(IsSet(inv.priceLowSum), Leaf("typ:priceLowSum", Rendered(inv.priceLowSum)));
    var o4 := Optional(IsSet(inv.priceHigh), Leaf("typ:priceHigh", Rendered(inv.priceHigh)));
    var o5 := Optional(IsSet(inv.priceHightVAT), Leaf("typ:priceHighVAT", Rendered(inv.priceHightVAT)));
    var o6 := Optional(IsSet(inv.priceHighSum), Leaf("typ:priceHighSum", Rendered(inv.priceHighSum)));
    NameInOptional(IsSet(inv.priceNone), Leaf("typ:priceNone", Rendered(inv.priceNone)), x);
    NameInOptional(IsSet(inv.priceLow), Leaf("typ:priceLow", Rendered(inv.priceLow)), x);
    NameInOptional(IsSet(inv.priceLowVAT), Leaf("typ:priceLowVAT", Rendered(inv.priceLowVAT)), x);
    NameInOptional(IsSet(inv.priceLowSum), Leaf("typ:priceLowSum", Rendered(inv.priceLowSum)), x);
    NameInOptional(IsSet(inv.priceHigh), Leaf("typ:priceHigh", Rendered(inv.priceHigh)), x);
    NameInOptional(IsSet(inv.priceHightVAT), Leaf("typ:priceHighVAT", Rendered(inv.priceHightVAT)), x);
    NameInOptional(IsSet(inv.priceHighSum), Leaf("typ:priceHighSum", Rendered(inv.priceHighSum)), x);
    NameInConcat(o0, o1, x);
    NameInConcat(o0 + o1, o2, x);
    NameInConcat(o0 + o1 + o2, o3, x);
    NameInConcat(o0 + o1 + o2 + o3, o4, x);
    NameInConcat(o0 + o1 + o2 + o3 + o4, o5, x);
    NameInConcat(o0 + o1 + o2 + o3 + o4 + o5, o6, x);
  }

  /** Each summary price is written exactly when it is not null, so a zero
      price is written. */
  lemma SummaryPriceGates(inv: Invoice)
    ensures var names := Names(inv.SummaryPrices());
      && ("typ:priceNone" in names <==> IsSet(inv.priceNone))
      && ("typ:priceLow" in names <==> IsSet(inv.priceLow))
      && ("typ:priceLowVAT" in names <==> IsSet(inv.priceLowVAT))
      && ("typ:priceLowSum" in names <==> IsSet(inv.priceLowSum))
      && ("typ:priceHigh" in names <==> IsSet(inv.priceHigh))
      && ("typ:priceHighVAT" in names <==> IsSet(inv.priceHightVAT))
      && ("typ:priceHighSum" in names <==> IsSet(inv.priceHighSum))
  {
    SummaryPriceHas(inv, "typ:priceNone");
    SummaryPriceHas(inv, "typ:priceLow");
    SummaryPriceHas(inv, "typ:priceLowVAT");
    SummaryPriceHas(inv, "typ:priceLowSum");
    SummaryPriceHas(inv, "typ:priceHigh");
    SummaryPriceHas(inv, "typ:priceHighVAT");
    SummaryPriceHas(inv, "typ:priceHighSum");
  }

  /** A value that is set but false in PHP's sense, such as a zero, is
      written as a summary price but left out of a line's prices and rate. */
  lemma ZeroPriceGates(inv: Invoice, p: Item)
    requires IsSet(inv.priceLow) && !Truthy(inv.priceLow)
    requires p.price == inv.priceLow && p.rateVAT == inv.priceLow
    ensures "typ:priceLow" in Names(inv.SummaryPrices())
    ensures "typ:price" !in Names(ItemHomeCurrency(p).children)
    ensures "inv:rateVAT" !in Names(ItemElement(p).children)
  {
    SummaryPriceGates(inv);
    ItemProperties.ItemGates(p);
    ItemProperties.ItemPricesGates(p);
  }

  /** The seven summary prices as `exportSummary` writes them, over the seven
      values: each price that is written carries its own value. One lemma per
      price keeps each proof small. */
  lemma PriceNoneWritten(
      none: Scalar, low: Scalar, lowVAT: Scalar, lowSum: Scalar,
      high: Scalar, highVAT: Scalar, highSum: Scalar)
    ensures Writes(
      Optional(IsSet(none), Leaf("typ:priceNone", Rendered(none)))
      + Optional(IsSet(low), Leaf("typ:priceLow", Rendered(low)))
      + Optional(IsSet(lowVAT), Leaf("typ:priceLowVAT", Rendered(lowVAT)))
      + Optional(IsSet(lowSum), Leaf("typ:priceLowSum", Rendered(lowSum)))
      + Optional(IsSet(high), Leaf("typ:priceHigh", Rendered(high)))
      + Optional(IsSet(highVAT), Leaf("typ:priceHighVAT", Rendered(highVAT)))
      + Optional(IsSet(highSum), Leaf("typ:priceHighSum", Rendered(highSum))),
      Leaf("typ:priceNone", Rendered(none)))
  {
    var n := Leaf("typ:priceNone", Rendered(none));
    var o0 := Optional(IsSet(none), Leaf("typ:priceNone", Rendered(none)));
    var o1 := Optional(IsSet(low), Leaf("typ:priceLow", Rendered(low)));
    var o2 := Optional(IsSet(lowVAT), Leaf("typ:priceLowVAT", Rendered(lowVAT)));
    var o3 := Optional(IsSet(lowSum), Leaf("typ:priceLowSum", Rendered(lowSum)));
    var o4 := Optional(IsSet(high), Leaf("typ:priceHigh", Rendered(high)));
    var o5 := Optional(IsSet(highVAT), Leaf("typ:priceHighVAT", Rendered(highVAT)));
    var o6 := Optional(IsSet(highSum), Leaf("typ:priceHighSum", Rendered(highSum)));
    WritesOptional(IsSet(none), Leaf("typ:priceNone", Rendered(none)), n);
    WritesOptional(IsSet(low), Leaf("typ:priceLow", Rendered(low)), n);
    WritesOptional(IsSet(lowVAT), Leaf("typ:priceLowVAT", Rendered(lowVAT)), n);
    WritesOptional(IsSet(lowSum), Leaf("typ:priceLowSum", Rendered(lowSum)), n);
    WritesOptional(IsSet(high), Leaf("typ:priceHigh", Rendered(high)), n);
    WritesOptional(IsSet(highVAT), Leaf("typ:priceHighVAT", Rendered(highVAT)), n);
    WritesOptional(IsSet(highSum), Leaf("typ:priceHighSum", Rendered(highSum)), n);
    WritesJoin(o0, o1, n);
    WritesJoin(o0 + o1, o2, n);
    WritesJoin(o0 + o1 + o2, o3, n);
    WritesJoin(o0 + o1 + o2 + o3, o4, n);
    WritesJoin(o0 + o1 + o2 + o3 + o4, o5, n);
    WritesJoin(o0 + o1 + o2 + o3 + o4 + o5, o6, n);
  }

  lemma PriceLowWritten(
      none: Scalar, low: Scalar, lowVAT: Scalar, lowSum: Scalar,
      high: Scalar, highVAT: Scalar, highSum: Scalar)
    ensures Writes(
      Optional(IsSet(none), Leaf("typ:priceNone", Rendered(none)))
      + Optional(IsSet(low), Leaf("typ:priceLow", Rendered(low)))
      + Optional(IsSet(lowVAT), Leaf("typ:priceLowVAT", Rendered(lowVAT)))
      + Optional(IsSet(lowSum), Leaf("typ:priceLowSum", Rendered(lowSum)))
      + Optional(IsSet(high), Leaf("typ:priceHigh", Rendered(high)))
      + Optional(IsSet(highVAT), Leaf("typ:priceHighVAT", Rendered(highVAT)))
      + Optional(IsSet(highSum), Leaf("typ:priceHighSum", Rendered(highSum))),
      Leaf("typ:priceLow", Rendered(low)))
  {
    var n := Leaf("typ:priceLow", Rendered(low));
    var o0 := Optional(IsSet(none), Leaf("typ:priceNone", Rendered(none)));
    var o1 := Optional(IsSet(low), Leaf("typ:priceLow", Rendered(low)));
    var o2 := Optional(IsSet(lowVAT), Leaf("typ:priceLowVAT", Rendered(lowVAT)));
    var o3 := Optional(IsSet(lowSum), Leaf("typ:priceLowSum", Rendered(lowSum)));
    var o4 := Optional(IsSet(high), Leaf("typ:priceHigh", Rendered(high)));
    var o5 := Optional(IsSet(highVAT), Leaf("typ:priceHighVAT", Rendered(highVAT)));
    var o6 := Optional(IsSet(highSum), Leaf("typ:priceHighSum", Rendered(highSum)));
    WritesOptional(IsSet(none), Leaf("typ:priceNone", Rendered(none)), n);
    WritesOptional(IsSet(low), Leaf("typ:priceLow", Rendered(low)), n);
    WritesOptional(IsSet(lowVAT), Leaf("typ:priceLowVAT", Rendered(lowVAT)), n);
    WritesOptional(IsSet(lowSum), Leaf("typ:priceLowSum", Rendered(lowSum)), n);
    WritesOptional(IsSet(high), Leaf("typ:priceHigh", Rendered(high)), n);
    WritesOptional(IsSet(highVAT), Leaf("typ:priceHighVAT", Rendered(highVAT)), n);
    WritesOptional(IsSet(highSum), Leaf("typ:priceHighSum", Rendered(highSum)), n);
    WritesJoin(o0, o1, n);
    WritesJoin(o0 + o1, o2, n);
    WritesJoin(o0 + o1 + o2, o3, n);
    WritesJoin(o0 + o1 + o2 + o3, o4, n);
    WritesJoin(o0 + o1 + o2 + o3 + o4, o5, n);
    WritesJoin(o0 + o1 + o2 + o3 + o4 + o5, o6, n);
  }

  lemma PriceLowVATWritten(
      none: Scalar, low: Scalar, lowVAT: Scalar, lowSum: Scalar,
      high: Scalar, highVAT: Scalar, highSum: Scalar)
    ensures Writes(
      Optional(IsSet(none), Leaf("typ:priceNone", Rendered(none)))
      + Optional(IsSet(low), Leaf("typ:priceLow", Rendered(low)))
      + Optional(IsSet(lowVAT), Leaf("typ:priceLowVAT", Rendered(lowVAT)))
      + Optional(IsSet(lowSum), Leaf("typ:priceLowSum", Rendered(lowSum)))
      + Optional(IsSet(high), Leaf("typ:priceHigh", Rendered(high)))
      + Optional(IsSet(highVAT), Leaf("typ:priceHighVAT", Rendered(highVAT)))
      + Optional(IsSet(highSum), Leaf("typ:priceHighSum", Rendered(highSum))),
      Leaf("typ:priceLowVAT", Rendered(lowVAT)))
  {
    var n := Leaf("typ:priceLowVAT", Rendered(lowVAT));
    var o0 := Optional(IsSet(none), Leaf("typ:priceNone", Rendered(none)));
    var o1 := Optional(IsSet(low), Leaf("typ:priceLow", Rendered(low)));
    var o2 := Optional(IsSet(lowVAT), Leaf("typ:priceLowVAT", Rendered(lowVAT)));
    var o3 := Optional(IsSet(lowSum), Leaf("typ:priceLowSum", Rendered(lowSum)));
    var o4 := Optional(IsSet(high), Leaf("typ:priceHigh", Rendered(high)));
    var o5 := Optional(IsSet(highVAT), Leaf("typ:priceHighVAT", Rendered(highVAT)));
    var o6 := Optional(IsSet(highSum), Leaf("typ:priceHighSum", Rendered(highSum)));
    WritesOptional(IsSet(none), Leaf("typ:priceNone", Rendered(none)), n);
    WritesOptional(IsSet(low), Leaf("typ:priceLow", Rendered(low)), n);
    WritesOptional(IsSet(lowVAT), Leaf("typ:priceLowVAT", Rendered(lowVAT)), n);
    WritesOptional(IsSet(lowSum), Leaf("typ:priceLowSum", Rendered(lowSum)), n);
    WritesOptional(IsSet(high), Leaf("typ:priceHigh", Rendered(high)), n);
    WritesOptional(IsSet(highVAT), Leaf("typ:priceHighVAT", Rendered(highVAT)), n);
    WritesOptional(IsSet(highSum), Leaf("typ:priceHighSum", Rendered(highSum)), n);
    WritesJoin(o0, o1, n);
    WritesJoin(o0 + o1, o2, n);
    WritesJoin(o0 + o1 + o2, o3, n);
    WritesJoin(o0 + o1 + o2 + o3, o4, n);
    WritesJoin(o0 + o1 + o2 + o3 + o4, o5, n);
    WritesJoin(o0 + o1 + o2 + o3 + o4 + o5, o6, n);
  }

  lemma PriceLowSumWritten(
      none: Scalar, low: Scalar, lowVAT: Scalar, lowSum: Scalar,
      high: Scalar, highVAT: Scalar, highSum: Scalar)
    ensures Writes(
      Optional(IsSet(none), Leaf("typ:priceNone", Rendered(none)))
      + Optional(IsSet(low), Leaf("typ:priceLow", Rendered(low)))
      + Optional(IsSet(lowVAT), Leaf("typ:priceLowVAT", Rendered(lowVAT)))
      + Optional(IsSet(lowSum), Leaf("typ:priceLowSum", Rendered(lowSum)))
      + Optional(IsSet(high), Leaf("typ:priceHigh", Rendered(high)))
      + Optional(IsSet(highVAT), Leaf("typ:priceHighVAT", Rendered(highVAT)))
      + Optional(IsSet(highSum), Leaf("typ:priceHighSum", Rendered(highSum))),
      Leaf("typ:priceLowSum", Rendered(lowSum)))
  {
    var n := Leaf("typ:priceLowSum", Rendered(lowSum));
    var o0 := Optional(IsSet(none), Leaf("typ:priceNone", Rendered(none)));
    var o1 := Optional(IsSet(low), Leaf("typ:priceLow", Rendered(low)));
    var o2 := Optional(IsSet(lowVAT), Leaf("typ:priceLowVAT", Rendered(lowVAT)));
    var o3 := Optional(IsSet(lowSum), Leaf("typ:priceLowSum", Rendered(lowSum)));
    var o4 := Optional(IsSet(high), Leaf("typ:priceHigh", Rendered(high)));
    var o5 := Optional(IsSet(highVAT), Leaf("typ:priceHighVAT", Rendered(highVAT)));
    var o6 := Optional(IsSet(highSum), Leaf("typ:priceHighSum", Rendered(highSum)));
    WritesOptional(IsSet(none), Leaf("typ:priceNone", Rendered(none)), n);
    WritesOptional(IsSet(low), Leaf("typ:priceLow", Rendered(low)), n);
    WritesOptional(IsSet(lowVAT), Leaf("typ:priceLowVAT", Rendered(lowVAT)), n);
    WritesOptional(IsSet(lowSum), Leaf("typ:priceLowSum", Rendered(lowSum)), n);
    WritesOptional(IsSet(high), Leaf("typ:priceHigh", Rendered(high)), n);
    WritesOptional(IsSet(highVAT), Leaf("typ:priceHighVAT", Rendered(highVAT)), n);
    WritesOptional(IsSet(highSum), Leaf("typ:priceHighSum", Rendered(highSum)), n);
    WritesJoin(o0, o1, n);
    WritesJoin(o0 + o1, o2, n);
    WritesJoin(o0 + o1 + o2, o3, n);
    WritesJoin(o0 + o1 + o2 + o3, o4, n);
    WritesJoin(o0 + o1 + o2 + o3 + o4, o5, n);
    WritesJoin(o0 + o1 + o2 + o3 + o4 + o5, o6, n);
  }

  lemma PriceHighWritten(
      none: Scalar, low: Scalar, lowVAT: Scalar, lowSum: Scalar,
      high: Scalar, highVAT: Scalar, highSum: Scalar)
    ensures Writes(
      Optional(IsSet(none), Leaf("typ:priceNone", Rendered(none)))
      + Optional(IsSet(low), Leaf("typ:priceLow", Rendered(low)))
      + Optional(IsSet(lowVAT), Leaf("typ:priceLowVAT", Rendered(lowVAT)))
      + Optional(IsSet(lowSum), Leaf("typ:priceLowSum", Rendered(lowSum)))
      + Optional(IsSet(high), Leaf("typ:priceHigh", Rendered(high)))
      + Optional(IsSet(highVAT), Leaf("typ:priceHighVAT", Rendered(highVAT)))
      + Optional(IsSet(highSum), Leaf("typ:priceHighSum", Rendered(highSum))),
      Leaf("typ:priceHigh", Rendered(high)))
  {
    var n := Leaf("typ:priceHigh", Rendered(high));
    var o0 := Optional(IsSet(none), Leaf("typ:priceNone", Rendered(none)));
    var o1 := Optional(IsSet(low), Leaf("typ:priceLow", Rendered(low)));
    var o2 := Optional(IsSet(lowVAT), Leaf("typ:priceLowVAT", Rendered(lowVAT)));
    var o3 := Optional(IsSet(lowSum), Leaf("typ:priceLowSum", Rendered(lowSum)));
    var o4 := Optional(IsSet(high), Leaf("typ:priceHigh", Rendered(high)));
    var o5 := Optional(IsSet(highVAT), Leaf("typ:priceHighVAT", Rendered(highVAT)));
    var o6 := Optional(IsSet(highSum), Leaf("typ:priceHighSum", Rendered(highSum)));
    WritesOptional(IsSet(none), Leaf("typ:priceNone", Rendered(none)), n);
    WritesOptional(IsSet(low), Leaf("typ:priceLow", Rendered(low)), n);
    WritesOptional(IsSet(lowVAT), Leaf("typ:priceLowVAT", Rendered(lowVAT)), n);
    WritesOptional(IsSet(lowSum), Leaf("typ:priceLowSum", Rendered(lowSum)), n);
    WritesOptional(IsSet(high), Leaf("typ:priceHigh", Rendered(high)), n);
    WritesOptional(IsSet(highVAT), Leaf("typ:priceHighVAT", Rendered(highVAT)), n);
    WritesOptional(IsSet(highSum), Leaf("typ:priceHighSum", Rendered(highSum)), n);
    WritesJoin(o0, o1, n);
    WritesJoin(o0 + o1, o2, n);
    WritesJoin(o0 + o1 + o2, o3, n);
    WritesJoin(o0 + o1 + o2 + o3, o4, n);
    WritesJoin(o0 + o1 + o2 + o3 + o4, o5, n);
    WritesJoin(o0 + o1 + o2 + o3 + o4 + o5, o6, n);
  }

  lemma PriceHighVATWritten(
      none: Scalar, low: Scalar, lowVAT: Scalar, lowSum: Scalar,
      high: Scalar, highVAT: Scalar, highSum: Scalar)
    ensures Writes(
      Optional(IsSet(none), Leaf("typ:priceNone", Rendered(none)))
      + Optional(IsSet(low), Leaf("typ:priceLow", Rendered(low)))
      + Optional(IsSet(lowVAT), Leaf("typ:priceLowVAT", Rendered(lowVAT)))
      + Optional(IsSet(lowSum), Leaf("typ:priceLowSum", Rendered(lowSum)))
      + Optional(IsSet(high), Leaf("typ:priceHigh", Rendered(high)))
      + Optional(IsSet(highVAT), Leaf("typ:priceHighVAT", Rendered(highVAT)))
      + Optional(IsSet(highSum), Leaf("typ:priceHighSum", Rendered(highSum))),
      Leaf("typ:priceHighVAT", Rendered(highVAT)))
  {
    var n := Leaf("typ:priceHighVAT", Rendered(highVAT));
    var o0 := Optional(IsSet(none), Leaf("typ:priceNone", Rendered(none)));
    var o1 := Optional(IsSet(low), Leaf("typ:priceLow", Rendered(low)));
    var o2 := Optional(IsSet(lowVAT), Leaf("typ:priceLowVAT", Rendered(lowVAT)));
    var o3 := Optional(IsSet(lowSum), Leaf("typ:priceLowSum", Rendered(lowSum)));
    var o4 := Optional(IsSet(high), Leaf("typ:priceHigh", Rendered(high)));
    var o5 := Optional(IsSet(highVAT), Leaf("typ:priceHighVAT", Rendered(highVAT)));
    var o6 := Optional(IsSet(highSum), Leaf("typ:priceHighSum", Rendered(highSum)));
    WritesOptional(IsSet(none), Leaf("typ:priceNone", Rendered(none)), n);
    WritesOptional(IsSet(low), Leaf("typ:priceLow", Rendered(low)), n);
    WritesOptional(IsSet(lowVAT), Leaf("typ:priceLowVAT", Rendered(lowVAT)), n);
    WritesOptional(IsSet(lowSum), Leaf("typ:priceLowSum", Rendered(lowSum)), n);
    WritesOptional(IsSet(high), Leaf("typ:priceHigh", Rendered(high)), n);
    WritesOptional(IsSet(highVAT), Leaf("typ:priceHighVAT", Rendered(highVAT)), n);
    WritesOptional(IsSet(highSum), Leaf("typ:priceHighSum", Rendered(highSum)), n);
    WritesJoin(o0, o1, n);
    WritesJoin(o0 + o1, o2, n);
    WritesJoin(o0 + o1 + o2, o3, n);
    WritesJoin(o0 + o1 + o2 + o3, o4, n);
    WritesJoin(o0 + o1 + o2 + o3 + o4, o5, n);
    WritesJoin(o0 + o1 + o2 + o3 + o4 + o5, o6, n);
  }

  lemma PriceHighSumWritten(
      none: Scalar, low: Scalar, lowVAT: Scalar, lowSum: Scalar,
      high: Scalar, highVAT: Scalar, highSum: Scalar)
    ensures Writes(
      Optional(IsSet(none), Leaf("typ:priceNone", Rendered(none)))
      + Optional(IsSet(low), Leaf("typ:priceLow", Rendered(low)))
      + Optional(IsSet(lowVAT), Leaf("typ:priceLowVAT", Rendered(lowVAT)))
      + Optional(IsSet(lowSum), Leaf("typ:priceLowSum", Rendered(lowSum)))
      + Optional(IsSet(high), Leaf("typ:priceHigh", Rendered(high)))
      + Optional(IsSet(highVAT), Leaf("typ:priceHighVAT", Rendered(highVAT)))
      + Optional(IsSet(highSum), Leaf("typ:priceHighSum", Rendered(highSum))),
      Leaf("typ:priceHighSum", Rendered(highSum)))
  {
    var n := Leaf("typ:priceHighSum", Rendered(highSum));
    var o0 := Optional(IsSet(none), Leaf("typ:priceNone", Rendered(none)));
    var o1 := Optional(IsSet(low), Leaf("typ:priceLow", Rendered(low)));
    var o2 := Optional(IsSet(lowVAT), Leaf("typ:priceLowVAT", Rendered(lowVAT)));
    var o3 := Optional(IsSet(lowSum), Leaf("typ:priceLowSum", Rendered(lowSum)));
    var o4 := Optional(IsSet(high), Leaf("typ:priceHigh", Rendered(high)));
    var o5 := Optional(IsSet(highVAT), Leaf("typ:priceHighVAT", Rendered(highVAT)));
    var o6 := Optional(IsSet(highSum), Leaf("typ:priceHighSum", Rendered(highSum)));
    WritesOptional(IsSet(none), Leaf("typ:priceNone", Rendered(none)), n);
    WritesOptional(IsSet(low), Leaf("typ:priceLow", Rendered(low)), n);
    WritesOptional(IsSet(lowVAT), Leaf("typ:priceLowVAT", Rendered(lowVAT)), n);
    WritesOptional(IsSet(lowSum), Leaf("typ:priceLowSum", Rendered(lowSum)), n);
    WritesOptional(IsSet(high), Leaf("typ:priceHigh", Rendered(high)), n);
    WritesOptional(IsSet(highVAT), Leaf("typ:priceHighVAT", Rendered(highVAT)), n);
    WritesOptional(IsSet(highSum), Leaf("typ:priceHighSum", Rendered(highSum)), n);
    WritesJoin(o0, o1, n);
    WritesJoin(o0 + o1, o2, n);
    WritesJoin(o0 + o1 + o2, o3, n);
    WritesJoin(o0 + o1 + o2 + o3, o4, n);
    WritesJoin(o0 + o1 + o2 + o3 + o4, o5, n);
    WritesJoin(o0 + o1 + o2 + o3 + o4 + o5, o6, n);
  }

  /** Each summary price that is written carries the value of its own
      property; `typ:priceHighVAT` carries `priceHightVAT`. */
  lemma SummaryPriceValues(inv: Invoice)
    ensures var ns := inv.SummaryPrices();
      && Writes(ns, Leaf("typ:priceNone", Rendered(inv.priceNone)))
      && Writes(ns, Leaf("typ:priceLow", Rendered(inv.priceLow)))
      && Writes(ns, Leaf("typ:priceLowVAT", Rendered(inv.priceLowVAT)))
      && Writes(ns, Leaf("typ:priceLowSum", Rendered(inv.priceLowSum)))
      && Writes(ns, Leaf("typ:priceHigh", Rendered(inv.priceHigh)))
      && Writes(ns, Leaf("typ:priceHighVAT", Rendered(inv.priceHightVAT)))
      && Writes(ns, Leaf("typ:priceHighSum", Rendered(inv.priceHighSum)))
  {
    PriceNoneWritten(
      inv.priceNone, inv.priceLow, inv.priceLowVAT, inv.priceLowSum,
      inv.priceHigh, inv.priceHightVAT, inv.priceHighSum);
    PriceLowWritten(
      inv.priceNone, inv.priceLow, inv.priceLowVAT, inv.priceLowSum,
      inv.priceHigh, inv.priceHightVAT, inv.priceHighSum);
    PriceLowVATWritten(
      inv.priceNone, inv.priceLow, inv.priceLowVAT, inv.priceLowSum,
      inv.priceHigh, inv.priceHightVAT, inv.priceHighSum);
    PriceLowSumWritten(
      inv.priceNone, inv.priceLow, inv.priceLowVAT, inv.priceLowSum,
      inv.priceHigh, inv.priceHightVAT, inv.priceHighSum);
    PriceHighWritten(
      inv.priceNone, inv.priceLow, inv.priceLowVAT, inv.priceLowSum,
      inv.priceHigh, inv.priceHightVAT, inv.priceHighSum);
    PriceHighVATWritten(
      inv.priceNone, inv.priceLow, inv.priceLowVAT, inv.priceLowSum,
      inv.priceHigh, inv.priceHightVAT, inv.priceHighSum);
    PriceHighSumWritten(
      inv.priceNone, inv.priceLow, inv.priceLowVAT, inv.priceLowSum,
      inv.priceHigh, inv.priceHightVAT, inv.priceHighSum);
  }
}
