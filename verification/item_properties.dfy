/** The lines of `inv:invoiceDetail`: one `inv:invoiceItem` per item, the
    order of a line's children, and which of them PHP's truthiness decides. */
module ItemProperties {
  import opened Values
  import opened Xml
  import opened Pohoda

  /** One `inv:invoiceItem` per item, in the order the items were added. */
  lemma DetailOnePerItem(inv: Invoice)
    ensures var d := inv.DetailElement();
      && d.name == "inv:invoiceDetail"
      && |d.children| == |inv.items|
      && (forall i :: 0 <= i < |inv.items| ==> d.children[i] == ItemElement(inv.items[i]))
      && Names(d.children) == seq(|inv.items|, _ => "inv:invoiceItem")
  {
    NamesAt(inv.DetailElement().children);
  }

  /** Text, quantity, unit, coefficient and the VAT flag, then the rate, the discount and the home-currency block when present. */
  lemma ItemAmountsOrder(p: Item)
    ensures Names(ItemAmounts(p)) ==
      ["inv:text", "inv:quantity", "inv:unit", "inv:coefficient", "inv:payVAT"]
      + OptionalName(Truthy(p.rateVAT), "inv:rateVAT")
      + OptionalName(Truthy(p.discountPercentage), "inv:discountPercentage")
      + OptionalName(p.hasHomeCurrency, "inv:homeCurrency")
  {
    var p0 := [Leaf("inv:text", Rendered(p.text)), Leaf("inv:quantity", Rendered(p.quantity)), Leaf("inv:unit", Rendered(p.unit)), Leaf("inv:coefficient", Rendered(p.coefficient)), Leaf("inv:payVAT", Some(if p.payVAT then "true" else "false"))];
    var p1 := Optional(Truthy(p.rateVAT), Leaf("inv:rateVAT", Rendered(p.rateVAT)));
    var p2 := Optional(Truthy(p.discountPercentage), Leaf("inv:discountPercentage", Rendered(p.discountPercentage)));
    var p3 := Optional(p.hasHomeCurrency, ItemHomeCurrency(p));
    NamesAt(p0);
    assert Names(p0) == ["inv:text", "inv:quantity", "inv:unit", "inv:coefficient", "inv:payVAT"];
    NamesOptional(Truthy(p.rateVAT), Leaf("inv:rateVAT", Rendered(p.rateVAT)));
    NamesOptional(Truthy(p.discountPercentage), Leaf("inv:discountPercentage", Rendered(p.discountPercentage)));
    NamesOptional(p.hasHomeCurrency, ItemHomeCurrency(p));
    NamesConcat(p0, p1);
    NamesConcat(p0 + p1, p2);
    NamesConcat(p0 + p1 + p2, p3);
  }

  lemma ItemAmountsHas(p: Item, x: string)
    ensures x in Names(ItemAmounts(p)) <==>
      x == "inv:text" || x == "inv:quantity" || x == "inv:unit" || x == "inv:coefficient" || x == "inv:payVAT"
      || (Truthy(p.rateVAT) && x == "inv:rateVAT")
      || (Truthy(p.discountPercentage) && x == "inv:discountPercentage")
      || (p.hasHomeCurrency && x == "inv:homeCurrency")
  {
    var p0 := [Leaf("inv:text", Rendered(p.text)), Leaf("inv:quantity", Rendered(p.quantity)), Leaf("inv:unit", Rendered(p.unit)), Leaf("inv:coefficient", Rendered(p.coefficient)), Leaf("inv:payVAT", Some(if p.payVAT then "true" else "false"))];
    var p1 := Optional(Truthy(p.rateVAT), Leaf("inv:rateVAT", Rendered(p.rateVAT)));
    var p2 := Optional(Truthy(p.discountPercentage), Leaf("inv:discountPercentage", Rendered(p.discountPercentage)));
    var p3 := Optional(p.hasHomeCurrency, ItemHomeCurrency(p));
    NamesAt(p0);
    assert Names(p0) == ["inv:text", "inv:quantity", "inv:unit", "inv:coefficient", "inv:payVAT"];
    NameInOptional(Truthy(p.rateVAT), Leaf("inv:rateVAT", Rendered(p.rateVAT)), x);
    NameInOptional(Truthy(p.discountPercentage), Leaf("inv:discountPercentage", Rendered(p.discountPercentage)), x);
    NameInOptional(p.hasHomeCurrency, ItemHomeCurrency(p), x);
    NameInConcat(p0, p1, x);
    NameInConcat(p0 + p1, p2, x);
    NameInConcat(p0 + p1 + p2, p3, x);
  }

  /** Note, code, guarantee and guarantee type, then the stock reference when present. */
  lemma ItemRemarksOrder(p: Item)
    ensures Names(ItemRemarks(p)) ==
      ["inv:note", "inv:code", "inv:guarantee", "inv:guaranteeType"]
      + OptionalName(Truthy(p.stockItem), "inv:stockItem")
  {
    var p0 := [Leaf("inv:note", Rendered(p.note)), Leaf("inv:code", Rendered(p.code)), Leaf("inv:guarantee", Rendered(p.guarantee)), Leaf("inv:guaranteeType", Rendered(p.guaranteeType))];
    var p1 := Optional(Truthy(p.stockItem), Element("inv:stockItem", [Element("typ:stockItem", [Leaf("typ:ids", Rendered(p.stockItem))])]));
    NamesAt(p0);
    assert Names(p0) == ["inv:note", "inv:code", "inv:guarantee", "inv:guaranteeType"];
    NamesOptional(Truthy(p.stockItem), Element("inv:stockItem", [Element("typ:stockItem", [Leaf("typ:ids", Rendered(p.stockItem))])]));
    NamesConcat(p0, p1);
  }

  lemma ItemRemarksHas(p: Item, x: string)
    ensures x in Names(ItemRemarks(p)) <==>
      x == "inv:note" || x == "inv:code" || x == "inv:guarantee" || x == "inv:guaranteeType"
      || (Truthy(p.stockItem) && x == "inv:stockItem")
  {
    var p0 := [Leaf("inv:note", Rendered(p.note)), Leaf("inv:code", Rendered(p.code)), Leaf("inv:guarantee", Rendered(p.guarantee)), Leaf("inv:guaranteeType", Rendered(p.guaranteeType))];
    var p1 := Optional(Truthy(p.stockItem), Element("inv:stockItem", [Element("typ:stockItem", [Leaf("typ:ids", Rendered(p.stockItem))])]));
    NamesAt(p0);
    assert Names(p0) == ["inv:note", "inv:code", "inv:guarantee", "inv:guaranteeType"];
    NameInOptional(Truthy(p.stockItem), Element("inv:stockItem", [Element("typ:stockItem", [Leaf("typ:ids", Rendered(p.stockItem))])]), x);
    NameInConcat(p0, p1, x);
  }

  /** The home-currency prices of a line come in the order unit price, price, VAT, each only when true in PHP's sense. */
  lemma ItemPricesOrder(p: Item)
    ensures Names(ItemHomeCurrency(p).children) ==
      OptionalName(Truthy(p.unitPrice), "typ:unitPrice")
      + OptionalName(Truthy(p.price), "typ:price")
      + OptionalName(Truthy(p.priceVAT), "typ:priceVAT")
  {
    var p0 := Optional(Truthy(p.unitPrice), Leaf("typ:unitPrice", Rendered(p.unitPrice)));
    var p1 := Optional(Truthy(p.price), Leaf("typ:price", Rendered(p.price)));
    var p2 := Optional(Truthy(p.priceVAT), Leaf("typ:priceVAT", Rendered(p.priceVAT)));
    NamesOptional(Truthy(p.unitPrice), Leaf("typ:unitPrice", Rendered(p.unitPrice)));
    NamesOptional(Truthy(p.price), Leaf("typ:price", Rendered(p.price)));
    NamesOptional(Truthy(p.priceVAT), Leaf("typ:priceVAT", Rendered(p.priceVAT)));
    NamesConcat(p0, p1);
    NamesConcat(p0 + p1, p2);
  }

  /** Which home-currency prices a line holds. */
  lemma ItemPricesHas(p: Item, x: string)
    ensures x in Names(ItemHomeCurrency(p).children) <==>
      (Truthy(p.unitPrice) && x == "typ:unitPrice")
      || (Truthy(p.price) && x == "typ:price")
      || (Truthy(p.priceVAT) && x == "typ:priceVAT")
  {
    var p0 := Optional(Truthy(p.unitPrice), Leaf("typ:unitPrice", Rendered(p.unitPrice)));
    var p1 := Optional(Truthy(p.price), Leaf("typ:price", Rendered(p.price)));
    var p2 := Optional(Truthy(p.priceVAT), Leaf("typ:priceVAT", Rendered(p.priceVAT)));
    NameInOptional(Truthy(p.unitPrice), Leaf("typ:unitPrice", Rendered(p.unitPrice)), x);
    NameInOptional(Truthy(p.price), Leaf("typ:price", Rendered(p.price)), x);
    NameInOptional(Truthy(p.priceVAT), Leaf("typ:priceVAT", Rendered(p.priceVAT)), x);
    NameInConcat(p0, p1, x);
    NameInConcat(p0 + p1, p2, x);
  }

  /** A whole line in document order: the amounts, then the remarks, each
      optional child in its place when it is written. */
  lemma ItemOrder(p: Item)
    ensures ItemElement(p).name == "inv:invoiceItem"
    ensures Names(ItemElement(p).children) ==
      (["inv:text", "inv:quantity", "inv:unit", "inv:coefficient", "inv:payVAT"]
       + OptionalName(Truthy(p.rateVAT), "inv:rateVAT")
       + OptionalName(Truthy(p.discountPercentage), "inv:discountPercentage")
       + OptionalName(p.hasHomeCurrency, "inv:homeCurrency"))
      + (["inv:note", "inv:code", "inv:guarantee", "inv:guaranteeType"]
         + OptionalName(Truthy(p.stockItem), "inv:stockItem"))
  {
    NamesConcat(ItemAmounts(p), ItemRemarks(p));
    ItemAmountsOrder(p);
    ItemRemarksOrder(p);
  }

  lemma ItemHas(p: Item, x: string)
    ensures x in Names(ItemElement(p).children) <==>
      x in Names(ItemAmounts(p)) || x in Names(ItemRemarks(p))
  {
    NameInConcat(ItemAmounts(p), ItemRemarks(p), x);
  }

  /** The rate, the discount and the stock reference are written exactly when
      the item's value is true in PHP's sense (so a zero rate is left out); the
      home-currency block exactly when the item has home-currency data. */
  lemma ItemGates(p: Item)
    ensures var names := Names(ItemElement(p).children);
      && ("inv:rateVAT" in names <==> Truthy(p.rateVAT))
      && ("inv:discountPercentage" in names <==> Truthy(p.discountPercentage))
      && ("inv:homeCurrency" in names <==> p.hasHomeCurrency)
      && ("inv:stockItem" in names <==> Truthy(p.stockItem))
  {
    ItemHas(p, "inv:rateVAT");
    ItemAmountsHas(p, "inv:rateVAT");
    ItemRemarksHas(p, "inv:rateVAT");
    ItemHas(p, "inv:discountPercentage");
    ItemAmountsHas(p, "inv:discountPercentage");
    ItemRemarksHas(p, "inv:discountPercentage");
    ItemHas(p, "inv:homeCurrency");
    ItemAmountsHas(p, "inv:homeCurrency");
    ItemRemarksHas(p, "inv:homeCurrency");
    ItemHas(p, "inv:stockItem");
    ItemAmountsHas(p, "inv:stockItem");
    ItemRemarksHas(p, "inv:stockItem");
  }

  /** Text, quantity, unit, coefficient, the VAT flag, note, code, guarantee
      and guarantee type are written for every line, even when null. */
  lemma ItemAlwaysWritten(p: Item)
    ensures var names := Names(ItemElement(p).children);
      && "inv:text" in names && "inv:quantity" in names && "inv:unit" in names
      && "inv:coefficient" in names && "inv:payVAT" in names
      && "inv:note" in names && "inv:code" in names
      && "inv:guarantee" in names && "inv:guaranteeType" in names
  {
    ItemHas(p, "inv:text");
    ItemAmountsHas(p, "inv:text");
    ItemHas(p, "inv:quantity");
    ItemAmountsHas(p, "inv:quantity");
    ItemHas(p, "inv:unit");
    ItemAmountsHas(p, "inv:unit");
    ItemHas(p, "inv:coefficient");
    ItemAmountsHas(p, "inv:coefficient");
    ItemHas(p, "inv:payVAT");
    ItemAmountsHas(p, "inv:payVAT");
    ItemHas(p, "inv:note");
    ItemRemarksHas(p, "inv:note");
    ItemHas(p, "inv:code");
    ItemRemarksHas(p, "inv:code");
    ItemHas(p, "inv:guarantee");
    ItemRemarksHas(p, "inv:guarantee");
    ItemHas(p, "inv:guaranteeType");
    ItemRemarksHas(p, "inv:guaranteeType");
  }

  /** Each home-currency price is written exactly when it is true in PHP's sense. */
  lemma ItemPricesGates(p: Item)
    ensures var names := Names(ItemHomeCurrency(p).children);
      && ("typ:unitPrice" in names <==> Truthy(p.unitPrice))
      && ("typ:price" in names <==> Truthy(p.price))
      && ("typ:priceVAT" in names <==> Truthy(p.priceVAT))
  {
    ItemPricesHas(p, "typ:unitPrice");
    ItemPricesHas(p, "typ:price");
    ItemPricesHas(p, "typ:priceVAT");
  }

  /** The VAT flag is the text "true" or "false". */
  lemma ItemPayVATFlag(p: Item)
    ensures ItemElement(p).children[4] == Leaf("inv:payVAT", Some(if p.payVAT then "true" else "false"))
  {
  }

  /** The stock reference is nested as `inv:stockItem/typ:stockItem/typ:ids`,
      holds the item's stock value and closes the line. */
  lemma ItemStockReference(p: Item)
    requires Truthy(p.stockItem)
    ensures var ns := ItemElement(p).children;
      ns[|ns| - 1] == Element("inv:stockItem", [Element("typ:stockItem", [Leaf("typ:ids", Some(p.stockItem.text))])])
  {
  }

  /** Text, quantity, unit and coefficient each carry the value of the matching getter. */
  lemma ItemAmountsValues(p: Item)
    ensures var ns := ItemAmounts(p);
      && Writes(ns, Leaf("inv:text", Rendered(p.text)))
      && Writes(ns, Leaf("inv:quantity", Rendered(p.quantity)))
      && Writes(ns, Leaf("inv:unit", Rendered(p.unit)))
      && Writes(ns, Leaf("inv:coefficient", Rendered(p.coefficient)))
  {
    var p0 := [Leaf("inv:text", Rendered(p.text)), Leaf("inv:quantity", Rendered(p.quantity)), Leaf("inv:unit", Rendered(p.unit)), Leaf("inv:coefficient", Rendered(p.coefficient)), Leaf("inv:payVAT", Some(if p.payVAT then "true" else "false"))];
    var p1 := Optional(Truthy(p.rateVAT), Leaf("inv:rateVAT", Rendered(p.rateVAT)));
    var p2 := Optional(Truthy(p.discountPercentage), Leaf("inv:discountPercentage", Rendered(p.discountPercentage)));
    var p3 := Optional(p.hasHomeCurrency, ItemHomeCurrency(p));
    var n0 := Leaf("inv:text", Rendered(p.text));
    assert Writes(p0 + p1 + p2 + p3, n0) by {
      assert Writes(p0, n0);
      WritesOptional(Truthy(p.rateVAT), Leaf("inv:rateVAT", Rendered(p.rateVAT)), n0);
      WritesOptional(Truthy(p.discountPercentage), Leaf("inv:discountPercentage", Rendered(p.discountPercentage)), n0);
      WritesOptional(p.hasHomeCurrency, ItemHomeCurrency(p), n0);
      WritesJoin(p0, p1, n0);
      WritesJoin(p0 + p1, p2, n0);
      WritesJoin(p0 + p1 + p2, p3, n0);
    }
    var n1 := Leaf("inv:quantity", Rendered(p.quantity));
    assert Writes(p0 + p1 + p2 + p3, n1) by {
      assert Writes(p0, n1);
      WritesOptional(Truthy(p.rateVAT), Leaf("inv:rateVAT", Rendered(p.rateVAT)), n1);
      WritesOptional(Truthy(p.discountPercentage), Leaf("inv:discountPercentage", Rendered(p.discountPercentage)), n1);
      WritesOptional(p.hasHomeCurrency, ItemHomeCurrency(p), n1);
      WritesJoin(p0, p1, n1);
      WritesJoin(p0 + p1, p2, n1);
      WritesJoin(p0 + p1 + p2, p3, n1);
    }
    var n2 := Leaf("inv:unit", Rendered(p.unit));
    assert Writes(p0 + p1 + p2 + p3, n2) by {
      assert Writes(p0, n2);
      WritesOptional(Truthy(p.rateVAT), Leaf("inv:rateVAT", Rendered(p.rateVAT)), n2);
      WritesOptional(Truthy(p.discountPercentage), Leaf("inv:discountPercentage", Rendered(p.discountPercentage)), n2);
      WritesOptional(p.hasHomeCurrency, ItemHomeCurrency(p), n2);
      WritesJoin(p0, p1, n2);
      WritesJoin(p0 + p1, p2, n2);
      WritesJoin(p0 + p1 + p2, p3, n2);
    }
    var n3 := Leaf("inv:coefficient", Rendered(p.coefficient));
    assert Writes(p0 + p1 + p2 + p3, n3) by {
      assert Writes(p0, n3);
      WritesOptional(Truthy(p.rateVAT), Leaf("inv:rateVAT", Rendered(p.rateVAT)), n3);
      WritesOptional(Truthy(p.discountPercentage), Leaf("inv:discountPercentage", Rendered(p.discountPercentage)), n3);
      WritesOptional(p.hasHomeCurrency, ItemHomeCurrency(p), n3);
      WritesJoin(p0, p1, n3);
      WritesJoin(p0 + p1, p2, n3);
      WritesJoin(p0 + p1 + p2, p3, n3);
    }
  }

  /** The VAT rate and the discount carry the values of their getters. */
  lemma ItemRatesValues(p: Item)
    ensures var ns := ItemAmounts(p);
      && Writes(ns, Leaf("inv:rateVAT", Rendered(p.rateVAT)))
      && Writes(ns, Leaf("inv:discountPercentage", Rendered(p.discountPercentage)))
  {
  }

  /** Note, code, guarantee and guarantee type each carry the value of the matching getter. */
  lemma ItemRemarksValues(p: Item)
    ensures var ns := ItemRemarks(p);
      && Writes(ns, Leaf("inv:note", Rendered(p.note)))
      && Writes(ns, Leaf("inv:code", Rendered(p.code)))
      && Writes(ns, Leaf("inv:guarantee", Rendered(p.guarantee)))
      && Writes(ns, Leaf("inv:guaranteeType", Rendered(p.guaranteeType)))
  {
  }

  /** The home-currency unit price, price and VAT each carry the value of the matching getter. */
  lemma ItemPricesValues(p: Item)
    ensures var ns := ItemHomeCurrency(p).children;
      && Writes(ns, Leaf("typ:unitPrice", Rendered(p.unitPrice)))
      && Writes(ns, Leaf("typ:price", Rendered(p.price)))
      && Writes(ns, Leaf("typ:priceVAT", Rendered(p.priceVAT)))
  {
  }
}
