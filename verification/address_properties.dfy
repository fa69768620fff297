/** The address element `exportAddress` writes: which fields it holds, in
    which order, and under which names. */
module AddressProperties {
  import opened Values
  import opened Xml
  import opened Pohoda

  /** Company, name and division, each when its key is in the map. */
  lemma AddressNamesOrder(data: map<string, string>)
    ensures Names(AddressNames(data)) ==
      OptionalName("company" in data, "typ:company")
      + OptionalName("name" in data, "typ:name")
      + OptionalName("division" in data, "typ:division")
  {
    var p0 := Optional("company" in data, Leaf("typ:company", Field(data, "company")));
    var p1 := Optional("name" in data, Leaf("typ:name", Field(data, "name")));
    var p2 := Optional("division" in data, Leaf("typ:division", Field(data, "division")));
    NamesOptional("company" in data, Leaf("typ:company", Field(data, "company")));
    NamesOptional("name" in data, Leaf("typ:name", Field(data, "name")));
    NamesOptional("division" in data, Leaf("typ:division", Field(data, "division")));
    NamesConcat(p0, p1);
    NamesConcat(p0 + p1, p2);
  }

  lemma AddressNamesHas(data: map<string, string>, x: string)
    ensures x in Names(AddressNames(data)) <==>
      ("company" in data && x == "typ:company")
      || ("name" in data && x == "typ:name")
      || ("division" in data && x == "typ:division")
  {
    var p0 := Optional("company" in data, Leaf("typ:company", Field(data, "company")));
    var p1 := Optional("name" in data, Leaf("typ:name", Field(data, "name")));
    var p2 := Optional("division" in data, Leaf("typ:division", Field(data, "division")));
    NameInOptional("company" in data, Leaf("typ:company", Field(data, "company")), x);
    NameInOptional("name" in data, Leaf("typ:name", Field(data, "name")), x);
    NameInOptional("division" in data, Leaf("typ:division", Field(data, "division")), x);
    NameInConcat(p0, p1, x);
    NameInConcat(p0 + p1, p2, x);
  }

  /** City, street, number, country and zip, each when its key is in the map. */
  lemma AddressPlaceOrder(data: map<string, string>)
    ensures Names(AddressPlace(data)) ==
      OptionalName("city" in data, "typ:city")
      + OptionalName("street" in data, "typ:street")
      + OptionalName("number" in data, "typ:number")
      + OptionalName("country" in data, "typ:country")
      + OptionalName("zip" in data, "typ:zip")
  {
    var p0 := Optional("city" in data, Leaf("typ:city", Field(data, "city")));
    var p1 := Optional("street" in data, Leaf("typ:street", Field(data, "street")));
    var p2 := Optional("number" in data, Leaf("typ:number", Field(data, "number")));
    var p3 := Optional("country" in data, Element("typ:country", [Leaf("typ:ids", Field(data, "country"))]));
    var p4 := Optional("zip" in data, Leaf("typ:zip", Field(data, "zip")));
    NamesOptional("city" in data, Leaf("typ:city", Field(data, "city")));
    NamesOptional("street" in data, Leaf("typ:street", Field(data, "street")));
    NamesOptional("number" in data, Leaf("typ:number", Field(data, "number")));
    NamesOptional("country" in data, Element("typ:country", [Leaf("typ:ids", Field(data, "country"))]));
    NamesOptional("zip" in data, Leaf("typ:zip", Field(data, "zip")));
    NamesConcat(p0, p1);
    NamesConcat(p0 + p1, p2);
    NamesConcat(p0 + p1 + p2, p3);
    NamesConcat(p0 + p1 + p2 + p3, p4);
  }

  lemma AddressPlaceHas(data: map<string, string>, x: string)
    ensures x in Names(AddressPlace(data)) <==>
      ("city" in data && x == "typ:city")
      || ("street" in data && x == "typ:street")
      || ("number" in data && x == "typ:number")
      || ("country" in data && x == "typ:country")
      || ("zip" in data && x == "typ:zip")
  {
    var p0 := Optional("city" in data, Leaf("typ:city", Field(data, "city")));
    var p1 := Optional("street" in data, Leaf("typ:street", Field(data, "street")));
    var p2 := Optional("number" in data, Leaf("typ:number", Field(data, "number")));
    var p3 := Optional("country" in data, Element("typ:country", [Leaf("typ:ids", Field(data, "country"))]));
    var p4 := Optional("zip" in data, Leaf("typ:zip", Field(data, "zip")));
    NameInOptional("city" in data, Leaf("typ:city", Field(data, "city")), x);
    NameInOptional("street" in data, Leaf("typ:street", Field(data, "street")), x);
    NameInOptional("number" in data, Leaf("typ:number", Field(data, "number")), x);
    NameInOptional("country" in data, Element("typ:country", [Leaf("typ:ids", Field(data, "country"))]), x);
    NameInOptional("zip" in data, Leaf("typ:zip", Field(data, "zip")), x);
    NameInConcat(p0, p1, x);
    NameInConcat(p0 + p1, p2, x);
    NameInConcat(p0 + p1 + p2, p3, x);
    NameInConcat(p0 + p1 + p2 + p3, p4, x);
  }

  /** Registration number, VAT number, phone (as `typ:mobilPhone`) and e-mail, each when its key is in the map. */
  lemma AddressContactOrder(data: map<string, string>)
    ensures Names(AddressContact(data)) ==
      OptionalName("ico" in data, "typ:ico")
      + OptionalName("dic" in data, "typ:dic")
      + OptionalName("phone" in data, "typ:mobilPhone")
      + OptionalName("email" in data, "typ:email")
  {
    var p0 := Optional("ico" in data, Leaf("typ:ico", Field(data, "ico")));
    var p1 := Optional("dic" in data, Leaf("typ:dic", Field(data, "dic")));
    var p2 := Optional("phone" in data, Leaf("typ:mobilPhone", Field(data, "phone")));
    var p3 := Optional("email" in data, Leaf("typ:email", Field(data, "email")));
    NamesOptional("ico" in data, Leaf("typ:ico", Field(data, "ico")));
    NamesOptional("dic" in data, Leaf("typ:dic", Field(data, "dic")));
    NamesOptional("phone" in data, Leaf("typ:mobilPhone", Field(data, "phone")));
    NamesOptional("email" in data, Leaf("typ:email", Field(data, "email")));
    NamesConcat(p0, p1);
    NamesConcat(p0 + p1, p2);
    NamesConcat(p0 + p1 + p2, p3);
  }

  lemma AddressContactHas(data: map<string, string>, x: string)
    ensures x in Names(AddressContact(data)) <==>
      ("ico" in data && x == "typ:ico")
      || ("dic" in data && x == "typ:dic")
      || ("phone" in data && x == "typ:mobilPhone")
      || ("email" in data && x == "typ:email")
  {
    var p0 := Optional("ico" in data, Leaf("typ:ico", Field(data, "ico")));
    var p1 := Optional("dic" in data, Leaf("typ:dic", Field(data, "dic")));
    var p2 := Optional("phone" in data, Leaf("typ:mobilPhone", Field(data, "phone")));
    var p3 := Optional("email" in data, Leaf("typ:email", Field(data, "email")));
    NameInOptional("ico" in data, Leaf("typ:ico", Field(data, "ico")), x);
    NameInOptional("dic" in data, Leaf("typ:dic", Field(data, "dic")), x);
    NameInOptional("phone" in data, Leaf("typ:mobilPhone", Field(data, "phone")), x);
    NameInOptional("email" in data, Leaf("typ:email", Field(data, "email")), x);
    NameInConcat(p0, p1, x);
    NameInConcat(p0 + p1, p2, x);
    NameInConcat(p0 + p1 + p2, p3, x);
  }

  /** An address is tagged with its kind and holds, in this order, the name
      fields, the place fields and the registration and contact fields whose
      key is in the map. */
  lemma AddressOrder(data: map<string, string>, kind: string)
    ensures AddressElement(data, kind).name == "typ:" + kind
    ensures Names(AddressElement(data, kind).children) ==
      (OptionalName("company" in data, "typ:company")
       + OptionalName("name" in data, "typ:name")
       + OptionalName("division" in data, "typ:division"))
      + (OptionalName("city" in data, "typ:city")
         + OptionalName("street" in data, "typ:street")
         + OptionalName("number" in data, "typ:number")
         + OptionalName("country" in data, "typ:country")
         + OptionalName("zip" in data, "typ:zip"))
      + (OptionalName("ico" in data, "typ:ico")
         + OptionalName("dic" in data, "typ:dic")
         + OptionalName("phone" in data, "typ:mobilPhone")
         + OptionalName("email" in data, "typ:email"))
  {
    NamesConcat(AddressNames(data), AddressPlace(data));
    NamesConcat(AddressNames(data) + AddressPlace(data), AddressContact(data));
    AddressNamesOrder(data);
    AddressPlaceOrder(data);
    AddressContactOrder(data);
  }

  lemma AddressHas(data: map<string, string>, kind: string, x: string)
    ensures x in Names(AddressElement(data, kind).children) <==>
      x in Names(AddressNames(data)) || x in Names(AddressPlace(data)) || x in Names(AddressContact(data))
  {
    NameInConcat(AddressNames(data), AddressPlace(data), x);
    NameInConcat(AddressNames(data) + AddressPlace(data), AddressContact(data), x);
  }

  /** Company, name and division are written exactly when their key is in the map. */
  lemma AddressNameGates(data: map<string, string>, kind: string)
    ensures var names := Names(AddressElement(data, kind).children);
      && ("typ:company" in names <==> "company" in data)
      && ("typ:name" in names <==> "name" in data)
      && ("typ:division" in names <==> "division" in data)
  {
    AddressHas(data, kind, "typ:company");
    AddressNamesHas(data, "typ:company");
    AddressPlaceHas(data, "typ:company");
    AddressContactHas(data, "typ:company");
    AddressHas(data, kind, "typ:name");
    AddressNamesHas(data, "typ:name");
    AddressPlaceHas(data, "typ:name");
    AddressContactHas(data, "typ:name");
    AddressHas(data, kind, "typ:division");
    AddressNamesHas(data, "typ:division");
    AddressPlaceHas(data, "typ:division");
    AddressContactHas(data, "typ:division");
  }

  /** City, street, number, country and zip are written exactly when their
      key is in the map. */
  lemma AddressPlaceGates(data: map<string, string>, kind: string)
    ensures var names := Names(AddressElement(data, kind).children);
      && ("typ:city" in names <==> "city" in data)
      && ("typ:street" in names <==> "street" in data)
      && ("typ:number" in names <==> "number" in data)
      && ("typ:country" in names <==> "country" in data)
      && ("typ:zip" in names <==> "zip" in data)
  {
    AddressHas(data, kind, "typ:city");
    AddressNamesHas(data, "typ:city");
    AddressPlaceHas(data, "typ:city");
    AddressContactHas(data, "typ:city");
    AddressHas(data, kind, "typ:street");
    AddressNamesHas(data, "typ:street");
    AddressPlaceHas(data, "typ:street");
    AddressContactHas(data, "typ:street");
    AddressHas(data, kind, "typ:number");
    AddressNamesHas(data, "typ:number");
    AddressPlaceHas(data, "typ:number");
    AddressContactHas(data, "typ:number");
    AddressHas(data, kind, "typ:country");
    AddressNamesHas(data, "typ:country");
    AddressPlaceHas(data, "typ:country");
    AddressContactHas(data, "typ:country");
    AddressHas(data, kind, "typ:zip");
    AddressNamesHas(data, "typ:zip");
    AddressPlaceHas(data, "typ:zip");
    AddressContactHas(data, "typ:zip");
  }

  /** The registration number, the VAT number, the phone and the e-mail are
      written exactly when their key is in the map; the phone goes out as
      `typ:mobilPhone`, and no `typ:phone` element is ever written. */
  lemma AddressContactGates(data: map<string, string>, kind: string)
    ensures var names := Names(AddressElement(data, kind).children);
      && ("typ:ico" in names <==> "ico" in data)
      && ("typ:dic" in names <==> "dic" in data)
      && ("typ:mobilPhone" in names <==> "phone" in data)
      && ("typ:email" in names <==> "email" in data)
      && "typ:phone" !in names
  {
    AddressHas(data, kind, "typ:ico");
    AddressNamesHas(data, "typ:ico");
    AddressPlaceHas(data, "typ:ico");
    AddressContactHas(data, "typ:ico");
    AddressHas(data, kind, "typ:dic");
    AddressNamesHas(data, "typ:dic");
    AddressPlaceHas(data, "typ:dic");
    AddressContactHas(data, "typ:dic");
    AddressHas(data, kind, "typ:mobilPhone");
    AddressNamesHas(data, "typ:mobilPhone");
    AddressPlaceHas(data, "typ:mobilPhone");
    AddressContactHas(data, "typ:mobilPhone");
    AddressHas(data, kind, "typ:email");
    AddressNamesHas(data, "typ:email");
    AddressPlaceHas(data, "typ:email");
    AddressContactHas(data, "typ:email");
    AddressHas(data, kind, "typ:phone");
    AddressNamesHas(data, "typ:phone");
    AddressPlaceHas(data, "typ:phone");
    AddressContactHas(data, "typ:phone");
  }

  /** The country value is nested in a `typ:ids` element. */
  lemma AddressCountryNested(data: map<string, string>)
    requires "country" in data
    ensures AddressPlace(data)[|AddressPlace(data)| - 1 - (if "zip" in data then 1 else 0)]
      == Element("typ:country", [Leaf("typ:ids", Some(data["country"]))])
  {
  }

  /** Company, name and division carry the entries of the same key. */
  lemma AddressNamesValues(data: map<string, string>)
    ensures var ns := AddressNames(data);
      && ("company" in data ==> Writes(ns, Leaf("typ:company", Some(data["company"]))))
      && ("name" in data ==> Writes(ns, Leaf("typ:name", Some(data["name"]))))
      && ("division" in data ==> Writes(ns, Leaf("typ:division", Some(data["division"]))))
  {
  }

  /** City, street, number and zip carry the entries of the same key, and the country entry sits in `typ:country/typ:ids`. */
  lemma AddressPlaceValues(data: map<string, string>)
    ensures var ns := AddressPlace(data);
      && ("city" in data ==> Writes(ns, Leaf("typ:city", Some(data["city"]))))
      && ("street" in data ==> Writes(ns, Leaf("typ:street", Some(data["street"]))))
      && ("number" in data ==> Writes(ns, Leaf("typ:number", Some(data["number"]))))
      && ("country" in data ==> Writes(ns, Element("typ:country", [Leaf("typ:ids", Some(data["country"]))])))
      && ("zip" in data ==> Writes(ns, Leaf("typ:zip", Some(data["zip"]))))
  {
    var p0 := Optional("city" in data, Leaf("typ:city", Field(data, "city")));
    var p1 := Optional("street" in data, Leaf("typ:street", Field(data, "street")));
    var p2 := Optional("number" in data, Leaf("typ:number", Field(data, "number")));
    var p3 := Optional("country" in data, Element("typ:country", [Leaf("typ:ids", Field(data, "country"))]));
    var p4 := Optional("zip" in data, Leaf("typ:zip", Field(data, "zip")));
    if "city" in data {
      var n0 := Leaf("typ:city", Some(data["city"]));
      assert Writes(p0 + p1 + p2 + p3 + p4, n0) by {
        WritesOptional("city" in data, Leaf("typ:city", Field(data, "city")), n0);
        WritesOptional("street" in data, Leaf("typ:street", Field(data, "street")), n0);
        WritesOptional("number" in data, Leaf("typ:number", Field(data, "number")), n0);
        WritesOptional("country" in data, Element("typ:country", [Leaf("typ:ids", Field(data, "country"))]), n0);
        WritesOptional("zip" in data, Leaf("typ:zip", Field(data, "zip")), n0);
        WritesJoin(p0, p1, n0);
        WritesJoin(p0 + p1, p2, n0);
        WritesJoin(p0 + p1 + p2, p3, n0);
        WritesJoin(p0 + p1 + p2 + p3, p4, n0);
      }
    }
    if "street" in data {
      var n1 := Leaf("typ:street", Some(data["street"]));
      assert Writes(p0 + p1 + p2 + p3 + p4, n1) by {
        WritesOptional("city" in data, Leaf("typ:city", Field(data, "city")), n1);
        WritesOptional("street" in data, Leaf("typ:street", Field(data, "street")), n1);
        WritesOptional("number" in data, Leaf("typ:number", Field(data, "number")), n1);
        WritesOptional("country" in data, Element("typ:country", [Leaf("typ:ids", Field(data, "country"))]), n1);
        WritesOptional("zip" in data, Leaf("typ:zip", Field(data, "zip")), n1);
        WritesJoin(p0, p1, n1);
        WritesJoin(p0 + p1, p2, n1);
        WritesJoin(p0 + p1 + p2, p3, n1);
        WritesJoin(p0 + p1 + p2 + p3, p4, n1);
      }
    }
    if "number" in data {
      var n2 := Leaf("typ:number", Some(data["number"]));
      assert Writes(p0 + p1 + p2 + p3 + p4, n2) by {
        WritesOptional("city" in data, Leaf("typ:city", Field(data, "city")), n2);
        WritesOptional("street" in data, Leaf("typ:street", Field(data, "street")), n2);
        WritesOptional("number" in data, Leaf("typ:number", Field(data, "number")), n2);
        WritesOptional("country" in data, Element("typ:country", [Leaf("typ:ids", Field(data, "country"))]), n2);
        WritesOptional("zip" in data, Leaf("typ:zip", Field(data, "zip")), n2);
        WritesJoin(p0, p1, n2);
        WritesJoin(p0 + p1, p2, n2);
        WritesJoin(p0 + p1 + p2, p3, n2);
        WritesJoin(p0 + p1 + p2 + p3, p4, n2);
      }
    }
    if "country" in data {
      var n3 := Element("typ:country", [Leaf("typ:ids", Some(data["country"]))]);
      assert Writes(p0 + p1 + p2 + p3 + p4, n3) by {
        WritesOptional("city" in data, Leaf("typ:city", Field(data, "city")), n3);
        WritesOptional("street" in data, Leaf("typ:street", Field(data, "street")), n3);
        WritesOptional("number" in data, Leaf("typ:number", Field(data, "number")), n3);
        WritesOptional("country" in data, Element("typ:country", [Leaf("typ:ids", Field(data, "country"))]), n3);
        WritesOptional("zip" in data, Leaf("typ:zip", Field(data, "zip")), n3);
        WritesJoin(p0, p1, n3);
        WritesJoin(p0 + p1, p2, n3);
        WritesJoin(p0 + p1 + p2, p3, n3);
        WritesJoin(p0 + p1 + p2 + p3, p4, n3);
      }
    }
    if "zip" in data {
      var n4 := Leaf("typ:zip", Some(data["zip"]));
      assert Writes(p0 + p1 + p2 + p3 + p4, n4) by {
        WritesOptional("city" in data, Leaf("typ:city", Field(data, "city")), n4);
        WritesOptional("street" in data, Leaf("typ:street", Field(data, "street")), n4);
        WritesOptional("number" in data, Leaf("typ:number", Field(data, "number")), n4);
        WritesOptional("country" in data, Element("typ:country", [Leaf("typ:ids", Field(data, "country"))]), n4);
        WritesOptional("zip" in data, Leaf("typ:zip", Field(data, "zip")), n4);
        WritesJoin(p0, p1, n4);
        WritesJoin(p0 + p1, p2, n4);
        WritesJoin(p0 + p1 + p2, p3, n4);
        WritesJoin(p0 + p1 + p2 + p3, p4, n4);
      }
    }
  }

  /** Registration number, VAT number and e-mail carry the entries of the same key, and `typ:mobilPhone` carries the `phone` entry. */
  lemma AddressContactValues(data: map<string, string>)
    ensures var ns := AddressContact(data);
      && ("ico" in data ==> Writes(ns, Leaf("typ:ico", Some(data["ico"]))))
      && ("dic" in data ==> Writes(ns, Leaf("typ:dic", Some(data["dic"]))))
      && ("phone" in data ==> Writes(ns, Leaf("typ:mobilPhone", Some(data["phone"]))))
      && ("email" in data ==> Writes(ns, Leaf("typ:email", Some(data["email"]))))
  {
    var p0 := Optional("ico" in data, Leaf("typ:ico", Field(data, "ico")));
    var p1 := Optional("dic" in data, Leaf("typ:dic", Field(data, "dic")));
    var p2 := Optional("phone" in data, Leaf("typ:mobilPhone", Field(data, "phone")));
    var p3 := Optional("email" in data, Leaf("typ:email", Field(data, "email")));
    if "ico" in data {
      var n0 := Leaf("typ:ico", Some(data["ico"]));
      assert Writes(p0 + p1 + p2 + p3, n0) by {
        WritesOptional("ico" in data, Leaf("typ:ico", Field(data, "ico")), n0);
        WritesOptional("dic" in data, Leaf("typ:dic", Field(data, "dic")), n0);
        WritesOptional("phone" in data, Leaf("typ:mobilPhone", Field(data, "phone")), n0);
        WritesOptional("email" in data, Leaf("typ:email", Field(data, "email")), n0);
        WritesJoin(p0, p1, n0);
        WritesJoin(p0 + p1, p2, n0);
        WritesJoin(p0 + p1 + p2, p3, n0);
      }
    }
    if "dic" in data {
      var n1 := Leaf("typ:dic", Some(data["dic"]));
      assert Writes(p0 + p1 + p2 + p3, n1) by {
        WritesOptional("ico" in data, Leaf("typ:ico", Field(data, "ico")), n1);
        WritesOptional("dic" in data, Leaf("typ:dic", Field(data, "dic")), n1);
        WritesOptional("phone" in data, Leaf("typ:mobilPhone", Field(data, "phone")), n1);
        WritesOptional("email" in data, Leaf("typ:email", Field(data, "email")), n1);
        WritesJoin(p0, p1, n1);
        WritesJoin(p0 + p1, p2, n1);
        WritesJoin(p0 + p1 + p2, p3, n1);
      }
    }
    if "phone" in data {
      var n2 := Leaf("typ:mobilPhone", Some(data["phone"]));
      assert Writes(p0 + p1 + p2 + p3, n2) by {
        WritesOptional("ico" in data, Leaf("typ:ico", Field(data, "ico")), n2);
        WritesOptional("dic" in data, Leaf("typ:dic", Field(data, "dic")), n2);
        WritesOptional("phone" in data, Leaf("typ:mobilPhone", Field(data, "phone")), n2);
        WritesOptional("email" in data, Leaf("typ:email", Field(data, "email")), n2);
        WritesJoin(p0, p1, n2);
        WritesJoin(p0 + p1, p2, n2);
        WritesJoin(p0 + p1 + p2, p3, n2);
      }
    }
    if "email" in data {
      var n3 := Leaf("typ:email", Some(data["email"]));
      assert Writes(p0 + p1 + p2 + p3, n3) by {
        WritesOptional("ico" in data, Leaf("typ:ico", Field(data, "ico")), n3);
        WritesOptional("dic" in data, Leaf("typ:dic", Field(data, "dic")), n3);
        WritesOptional("phone" in data, Leaf("typ:mobilPhone", Field(data, "phone")), n3);
        WritesOptional("email" in data, Leaf("typ:email", Field(data, "email")), n3);
        WritesJoin(p0, p1, n3);
        WritesJoin(p0 + p1, p2, n3);
        WritesJoin(p0 + p1 + p2, p3, n3);
      }
    }
  }
}
