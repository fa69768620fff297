# Pohoda invoice builder and export, in Dafny

This project models the `Pohoda\Invoice` class of the pohoda-export library
(`src/Invoice.php`). The class is a builder for one issued invoice in the
Stormware Pohoda XML format, version 2.

The builder collects:

- header fields, with defaults: payment code `draft`, bank `FIO`, constant symbol `0308`, rounding `math2one`/`none`;
- invoice lines;
- the issuer's identity, as a key/value map;
- the customer's address.

The setters differ in what they do before storing:

- the variable and constant symbols, and the `ico` and `zip` entries of the issuer's identity, lose their whitespace first and are checked and stored stripped;
- the date setters check the value as given, then store it converted: a date object becomes its `Y-m-d` text, a string is kept;
- the text, bank, accounting, contract and payment-label setters check the value as given and store it unchanged;
- the note and order-number setters store the value unchecked, null included.

A failed check does not throw: it records one labelled message in `errors`, and the value is stored all the same. `isValid` rebuilds the list of missing required properties (`reqErrors`). `getErrors` reports both lists, each entry prefixed with the invoice id.

`export` appends one `inv:invoice` element that holds:

- a header;
- a detail section, only when there are lines;
- a summary.

Each section's children come in a fixed schema order. Each optional child is gated by a null test or by PHP truthiness.

Modules:

- `Values` (`values.dfy`): PHP null as `Option`. Opaque scalars (prices, quantities) are known only by their rendered text and their truthiness.
- `Strings` (`strings.dfy`): whitespace stripping, as `preg_replace('/\s+/', '', …)` does it.
- `Dates` (`dates.dfy`): `DateTime::format("Y-m-d")` and reading that text back.
- `Validators` (`validators.dfy`): the three checks a setter can request, and the at-most-one message a setter call records.
- `Xml` (`xml.dfy`): the element tree with prefixed names, `addChild`, sibling names, and the generic "one child per element" loop.
- `Pohoda` (`invoice.dfy`): the `Invoice` class. Its fields are the builder state, its setters are methods with `modifies` frames, and `checkRequired` is a loop. The export sections are functions of the state, and `export`/`exportDetail` are methods that append children.
- Property modules:
  - `ValidationProperties` (`validation_properties.dfy`), including client scenarios written as methods;
  - `HeaderProperties` (`header_properties.dfy`);
  - `ItemProperties` (`item_properties.dfy`);
  - `AddressProperties` (`address_properties.dfy`);
  - `DocumentProperties` (`document_properties.dfy`).

The header, a line and an address are each split into consecutive runs of children; each run's order and gates are proved on their own. The header runs are dates, terms and parties. A line's runs are amounts and remarks. An address's runs are names, place and contact. `HeaderOrder`, `ItemOrder` and `AddressOrder` state the whole section's name list, run after run. The `…Values` lemmas state, run by run, which value each written element carries.

## Model

| member | source | states |
|---|---|---|
| Strings.RemoveSpaces | src/Invoice.php:113-116 | the stripped text contains no whitespace and is no longer than the input |
| Strings.RemoveSpacesKeepsOthers | src/Invoice.php:113-116 | stripping keeps every non-whitespace character with its multiplicity |
| Strings.RemoveSpacesFixpoint | src/Invoice.php:113-116 | a text is left unchanged exactly when it holds no whitespace |
| Strings.RemoveSpacesIdempotent | src/Invoice.php:113-116 | stripping twice is stripping once |
| Strings.RemoveSpacesConcat | src/Invoice.php:113-116 | stripping distributes over concatenation |
| Dates.FormatDate | src/Invoice.php:118-124 | the `Y-m-d` text of a valid date parses back to that date; a four-digit year gives the exact `YYYY-MM-DD` shape |
| Dates.ConvertDate | src/Invoice.php:118-124 | a string passes through unchanged; a valid date object becomes text that parses back to it |
| Validators.Validate | src/Invoice.php:98-111 | no message exactly when every requested check passes; otherwise exactly one message, `label + " " + message` of the first failing check in the order length, numeric, date |
| Pohoda.Invoice.ValidateItem | src/Invoice.php:98-111 | `errors` grows by the message of the first failing check, or stays as it was |
| Pohoda.Invoice.constructor | src/Invoice.php:13-64 | the id is stored; every optional field is null, the lists and the identity are empty, and the defaults are `issuedInvoice`, no VAT, `draft`, `FIO`, `0308` |
| Pohoda.Invoice.SetWithVat | src/Invoice.php:66-71 | the flag is stored; the parameter type is the source's boolean check |
| Pohoda.Invoice.MissingRequired | src/Invoice.php:83-96 | no message exactly when every listed property is set, and at most one message per property |
| Pohoda.Invoice.CheckRequired | src/Invoice.php:83-96 | `reqErrors` is rebuilt from scratch, and the result is true exactly when date, varNum and text are set |
| Pohoda.Invoice.IsValid | src/Invoice.php:78-81 | valid exactly when date, varNum and text are set and no setter recorded an error; `reqErrors` is refreshed |
| Pohoda.Invoice.GetErrors | src/Invoice.php:126-136 | reads only the two lists; the result has `errors` then `reqErrors`, each entry `id + ":" + message`, and its length is their sum |
| Pohoda.Invoice.AddItem | src/Invoice.php:138-141 | the item is appended after the existing ones |
| Pohoda.Invoice.SetNumberOrder | src/Invoice.php:143-146 | the order number is stored as given, unchecked; null unsets it |
| Pohoda.Invoice.SetVariableNumber | src/Invoice.php:148-153 | the whitespace-stripped value is stored even when the length or numeric check fails; at most one message is recorded |
| Pohoda.Invoice.SetDateCreated | src/Invoice.php:155-159 | the converted date is stored whether or not the date check passes |
| Pohoda.Invoice.SetDateTax | src/Invoice.php:161-165 | as for the created date, for the tax date |
| Pohoda.Invoice.SetDateAccounting | src/Invoice.php:167-171 | as for the created date, for the accounting date |
| Pohoda.Invoice.SetDateDue | src/Invoice.php:173-177 | as for the created date, for the due date |
| Pohoda.Invoice.SetDateOrder | src/Invoice.php:179-183 | as for the created date, for the order date |
| Pohoda.Invoice.SetText | src/Invoice.php:185-189 | the text is stored; longer than 240 characters records one message |
| Pohoda.Invoice.SetBank | src/Invoice.php:191-195 | the bank shortcut is stored; the limit is 19 characters |
| Pohoda.Invoice.SetPaymentType | src/Invoice.php:197-215 | the payment code is never stored; a null or unknown code records exactly one message, and a known one records none |
| Pohoda.Invoice.SetPaymentTypeCzech | src/Invoice.php:217-221 | behaves as `SetPaymentTypeString` |
| Pohoda.Invoice.SetPaymentTypeString | src/Invoice.php:223-227 | the label is stored in the property the export reads; the limit is 20 characters |
| Pohoda.Invoice.SetAccounting | src/Invoice.php:229-233 | the accounting code is stored; the limit is 19 characters |
| Pohoda.Invoice.SetNote | src/Invoice.php:235-238 | the note is stored as given, unchecked; null unsets it |
| Pohoda.Invoice.SetContract | src/Invoice.php:240-244 | the contract is stored; the limit is 10 characters |
| Pohoda.Invoice.SetSymbolicNumber | src/Invoice.php:246-251 | the whitespace-stripped value is stored; it must be numeric and at most 20 characters |
| Pohoda.Invoice.SetPriceNone | src/Invoice.php:257-260 | the price is stored as given, null included |
| Pohoda.Invoice.SetPriceLow | src/Invoice.php:266-269 | the price is stored as given |
| Pohoda.Invoice.SetPriceLowVAT | src/Invoice.php:275-278 | the price is stored as given |
| Pohoda.Invoice.SetPriceLowSum | src/Invoice.php:284-287 | the price is stored as given |
| Pohoda.Invoice.SetPriceHigh | src/Invoice.php:293-296 | the price is stored as given |
| Pohoda.Invoice.SetPriceHightVAT | src/Invoice.php:302-305 | the price is stored as given |
| Pohoda.Invoice.SetPriceHighSum | src/Invoice.php:311-314 | the price is stored as given |
| Pohoda.NormalizedIdentity | src/Invoice.php:317-338 | the stored identity has the same keys; `ico` and `zip` are stripped of whitespace, and every other entry is as given |
| Pohoda.Invoice.SetProviderIdentity | src/Invoice.php:317-338 | stores the normalised map; records the messages for company, ico, street, zip, city in that order, only for keys present, checking ico and zip after stripping |
| Pohoda.Invoice.CheckEntry | src/Invoice.php:319-321 | an entry is checked only when its key is present |
| Pohoda.Invoice.SetCustomerAddress | src/Invoice.php:371-374 | the customer's address is stored |
| Pohoda.UnsupportedPaymentMessageAsWritten | src/Invoice.php:212 | the message as written adds nothing after its prefix |
| Pohoda.UnsupportedPaymentMessage | src/Invoice.php:212 | the corrected message starts with the same prefix and lists every accepted code after it |
| Pohoda.ItemElements | src/Invoice.php:469-471 | one line element per item, at the item's position |
| Xml.AppendEach | src/Invoice.php:469-471 | the loop appends one rendered child per element, in order, after the existing children, and changes nothing else |
| Pohoda.Invoice.ExportDetail | src/Invoice.php:467-504 | the detail receives exactly the line elements of the items, in insertion order, after whatever it held |
| Pohoda.Invoice.Export | src/Invoice.php:377-388 | exactly one child is appended to the target, the existing children are kept, and the new child is the invoice element |
| DocumentProperties.InvoiceLayout | src/Invoice.php:377-388 | the invoice element has version 2.0 and holds the header, then the detail exactly when there are items, then the summary |
| HeaderProperties.HeaderOrder | src/Invoice.php:390-465 | the header's children, in order: type, number, variable symbol, date, the tax, due and accounting dates when not null, VAT classification, accounting when set, text, payment, account, note when set, internal note, contract when set, constant symbol, issuer, customer, order number and order date when set |
| HeaderProperties.HeaderDatesOrder | src/Invoice.php:393-405 | type, requested number, variable symbol, date, then the tax, due and accounting dates that are not null, in that order |
| HeaderProperties.HeaderDatesHas | src/Invoice.php:393-405 | which names the dates run holds, and under which condition |
| HeaderProperties.HeaderTermsOrder | src/Invoice.php:408-443 | VAT classification, accounting if set, text, payment, bank account, note if set, internal note, contract if set, in that order |
| HeaderProperties.HeaderTermsHas | src/Invoice.php:408-443 | which names the terms run holds, and under which condition |
| HeaderProperties.HeaderPartiesOrder | src/Invoice.php:445-464 | constant symbol, issuer, customer, then the order number and order date if set |
| HeaderProperties.HeaderPartiesHas | src/Invoice.php:445-464 | which names the parties run holds, and under which condition |
| HeaderProperties.HeaderDateGates | src/Invoice.php:400-405 | the tax, due and accounting dates are written exactly when not null |
| HeaderProperties.HeaderTermGates | src/Invoice.php:418-443 | accounting, note and contract are written exactly when set |
| HeaderProperties.HeaderOrderReferenceGates | src/Invoice.php:458-464 | the order number and order date are written exactly when set |
| HeaderProperties.HeaderAlwaysWritten | src/Invoice.php:393-456 | the twelve unconditional header children are always written |
| HeaderProperties.ClassificationVATBranch | src/Invoice.php:408-416 | with VAT the classification is `inland` alone; without it, `ids "UN"` comes first and `nonSubsume` second |
| HeaderProperties.HeaderDatesValues | src/Invoice.php:393-399 | `inv:invoiceType` holds the invoice type, `inv:number` holds the id as `typ:numberRequested`, `inv:symVar` the variable symbol and `inv:date` the date of issue |
| HeaderProperties.HeaderOptionalDatesValues | src/Invoice.php:400-405 | a written tax, due or accounting date holds that date |
| HeaderProperties.HeaderTermsValues | src/Invoice.php:418-432 | a written accounting code sits in `typ:ids`, `inv:text` holds the text, and the bank shortcut sits in `inv:account/typ:ids` |
| HeaderProperties.HeaderNotesValues | src/Invoice.php:434-443 | a written note holds the note, `inv:intNote` the fixed import remark, and a written contract sits in `typ:ids` |
| HeaderProperties.HeaderPartiesValues | src/Invoice.php:445-464 | `inv:symConst` holds the constant symbol, the issuer is its identity map written as `typ:address`, the customer is what its address object writes, and a written order number or order date holds its value |
| HeaderProperties.PaymentBlock | src/Invoice.php:425-429 | the payment block holds the stored code first, and the label after it exactly when one was set |
| ItemProperties.DetailOnePerItem | src/Invoice.php:467-471 | the detail has one `inv:invoiceItem` per item, in insertion order |
| ItemProperties.ItemOrder | src/Invoice.php:471-502 | a line is an `inv:invoiceItem` whose children are, in order: text, quantity, unit, coefficient, VAT flag, rate, discount and home-currency block when present, note, code, guarantee, guarantee type, stock reference when present |
| ItemProperties.ItemAmountsOrder | src/Invoice.php:472-490 | text, quantity, unit, coefficient, VAT flag, then rate, discount and home-currency block when present |
| ItemProperties.ItemAmountsHas | src/Invoice.php:472-490 | which names the amounts run holds, and under which condition |
| ItemProperties.ItemRemarksOrder | src/Invoice.php:492-502 | note, code, guarantee, guarantee type, then the stock reference when present |
| ItemProperties.ItemRemarksHas | src/Invoice.php:492-502 | which names the remarks run holds, and under which condition |
| ItemProperties.ItemPricesOrder | src/Invoice.php:483-489 | the home-currency prices come as unit price, price, VAT, each only when truthy |
| ItemProperties.ItemPricesHas | src/Invoice.php:483-489 | which home-currency prices a line holds |
| ItemProperties.ItemGates | src/Invoice.php:477-502 | rate, discount and stock reference are written exactly when truthy; the home-currency block exactly when the item has home-currency data |
| ItemProperties.ItemAlwaysWritten | src/Invoice.php:472-495 | text, quantity, unit, coefficient, VAT flag, note, code, guarantee and guarantee type are written for every line |
| ItemProperties.ItemPricesGates | src/Invoice.php:484-489 | unit price, price and VAT are written exactly when truthy |
| ItemProperties.ItemAmountsValues | src/Invoice.php:472-475 | text, quantity, unit and coefficient each hold the rendered value of their getter |
| ItemProperties.ItemRatesValues | src/Invoice.php:477-480 | a written VAT rate or discount holds the rendered value of its getter |
| ItemProperties.ItemRemarksValues | src/Invoice.php:492-495 | note, code, guarantee and guarantee type each hold the rendered value of their getter |
| ItemProperties.ItemPricesValues | src/Invoice.php:483-489 | a written unit price, price or VAT amount holds the rendered value of its getter |
| ItemProperties.ItemPayVATFlag | src/Invoice.php:476 | the fifth child is the VAT flag as the text `true` or `false` |
| ItemProperties.ItemStockReference | src/Invoice.php:498-502 | a truthy stock reference closes the line, nested as `inv:stockItem/typ:stockItem/typ:ids` |
| AddressProperties.AddressOrder | src/Invoice.php:506-559 | the address is tagged `typ:<type>` and holds, in order, company, name, division, city, street, number, country, zip, ico, dic, phone as `typ:mobilPhone` and e-mail, each when its key is present |
| AddressProperties.AddressNamesOrder | src/Invoice.php:511-521 | company, name, division, each when its key is present |
| AddressProperties.AddressNamesHas | src/Invoice.php:511-521 | which name fields are written |
| AddressProperties.AddressPlaceOrder | src/Invoice.php:523-541 | city, street, number, country, zip, each when its key is present |
| AddressProperties.AddressPlaceHas | src/Invoice.php:523-541 | which place fields are written |
| AddressProperties.AddressContactOrder | src/Invoice.php:543-557 | ico, dic, phone as `typ:mobilPhone`, e-mail, each when its key is present |
| AddressProperties.AddressContactHas | src/Invoice.php:543-557 | which contact fields are written |
| AddressProperties.AddressNameGates | src/Invoice.php:511-521 | company, name and division are written exactly when their key is present |
| AddressProperties.AddressPlaceGates | src/Invoice.php:523-541 | city, street, number, country and zip are written exactly when their key is present |
| AddressProperties.AddressContactGates | src/Invoice.php:543-557 | ico, dic, phone and e-mail are written exactly when their key is present, the phone as `typ:mobilPhone` and never as `typ:phone` |
| AddressProperties.AddressNamesValues | src/Invoice.php:511-521 | company, name and division, when present, hold the map's entry of the same key |
| AddressProperties.AddressPlaceValues | src/Invoice.php:523-541 | city, street, number and zip, when present, hold the entry of the same key, and the country entry sits in `typ:country/typ:ids` |
| AddressProperties.AddressContactValues | src/Invoice.php:543-557 | ico, dic and e-mail, when present, hold the entry of the same key, and `typ:mobilPhone` holds the `phone` entry |
| AddressProperties.AddressCountryNested | src/Invoice.php:535-537 | the country value sits inside `typ:country/typ:ids` |
| DocumentProperties.SummaryLayout | src/Invoice.php:561-586 | rounding `math2one`, then `none`, then the home-currency block, whose last child is `typ:round/typ:priceRound` with text `0` |
| DocumentProperties.SummaryPriceOrder | src/Invoice.php:567-581 | the summary prices come in the order none, low, low VAT, low total, high, high VAT, high total, each only when not null |
| DocumentProperties.SummaryPriceHas | src/Invoice.php:567-581 | which summary prices are written |
| DocumentProperties.SummaryPriceGates | src/Invoice.php:568-581 | each summary price is written exactly when not null |
| DocumentProperties.SummaryPriceValues | src/Invoice.php:567-581 | each written summary price holds the rendered value of its own property; `typ:priceHighVAT` holds `priceHightVAT` |
| DocumentProperties.ZeroPriceGates | src/Invoice.php:477-581 | a value that is set but false, such as zero, is written in the summary and left out of a line |
| ValidationProperties.RequiredErrorsInOrder | src/Invoice.php:83-96 | one message per missing required property, in the order date, varNum, text |
| ValidationProperties.AtMostOneErrorPerCall | src/Invoice.php:98-111 | one check call records at most one message, and it starts with the label and a space |
| ValidationProperties.VariableNumberAccepted | src/Invoice.php:148-153 | a variable number is accepted exactly when, once stripped, it has at most 20 characters, all digits |
| ValidationProperties.NormalizedIdentityIdempotent | src/Invoice.php:317-338 | normalising a normalised identity changes nothing |
| ValidationProperties.IdentityErrorsBound | src/Invoice.php:317-338 | setting the identity records at most five messages, and none when no checked key is present |
| ValidationProperties.KnownCodesAreListed | src/Invoice.php:199-211 | a code is accepted exactly when it is one of the nine table keys |
| ValidationProperties.AsWrittenListsNoCode | src/Invoice.php:212 | the message as written lists no accepted code, so it differs from the corrected one |
| ValidationProperties.NewInvoiceIsInvalid | src/Invoice.php:78-96 | a new invoice is not valid, and its errors are the three missing properties prefixed with the id |
| ValidationProperties.StaleRequiredErrors | src/Invoice.php:126-136 | setting the text after `isValid` leaves `getErrors` unchanged, missing text included |
| ValidationProperties.RecheckedErrors | src/Invoice.php:78-96 | after the text is set, `isValid` reports only the date and the variable number as missing |
| ValidationProperties.InvalidValueIsStored | src/Invoice.php:148-153 | `"1 A"` is stored as `"1A"` and records one "is not numeric" message |
| ValidationProperties.SpacedNumberAccepted | src/Invoice.php:148-153 | `" 12 34 "` is stored as `"1234"` and records no message |
| ValidationProperties.PaymentTypeNotStored | src/Invoice.php:197-215 | after `setPaymentType("cash")` the exported code is still `draft`, with no message |

## Left out

- Namespace URIs (`Invoice::NS`, `Export::$NS_TYPE`): element names keep their `inv:`/`typ:` prefix as part of the name.
- `SimpleXMLElement` itself: `addChild` escaping and entity handling are not modelled.
- `Validators` is not part of this model. The checks are stated as predicates:
  - length at most n;
  - all decimal digits;
  - a date object, or a `YYYY-MM-DD` text naming a month 1-12 and a day 1-31.

  Their message texts are stand-ins.
- Month lengths and leap years in date validity are not modelled.
- `InvoiceItem` is known only by its getters' values. A price, quantity or rate is an opaque scalar with a rendered text and a truthiness; float arithmetic and formatting are out of scope.
- `Pohoda\Export\Address` is known only by the nodes its `exportAddress` appends. `createCustomerAddress` only builds foreign objects and is omitted.
- `getId` and `getProviderIdentity` are plain getters, read in the model as the fields `id` and `myIdentity`.
- Pohoda.Invoice.Export: the source fails at run time when no customer address was set; the model requires one.
- `exportAddress` is modelled with the type argument the class always passes, `address`. The identity map is `string` to `string`, so a key present with a null value (which `isset` treats as absent) is not modelled.
- Pohoda.Invoice.SetWithVat: a non-boolean argument, which the source rejects by throwing, cannot be expressed; the parameter is typed `bool`.
- Type errors that PHP 8 raises, such as in the payment message, are not modelled.
- The declared but unused property `paymentTypeString` is not modelled.
- The label lives in `paymentTypeSting`, the property the source writes and the export reads.
- The internal note and the missing-property prefix are kept as constants.
- Pohoda.Invoice.SetPaymentType: it records the corrected message (see Findings), not the as-written one.
- Pohoda.Invoice.SetText, Pohoda.Invoice.SetBank, Pohoda.Invoice.SetAccounting, Pohoda.Invoice.SetContract, Pohoda.Invoice.SetPaymentTypeString, Pohoda.Invoice.SetPaymentTypeCzech, Pohoda.Invoice.SetVariableNumber, Pohoda.Invoice.SetSymbolicNumber, Pohoda.Invoice.SetDateCreated, Pohoda.Invoice.SetDateTax, Pohoda.Invoice.SetDateAccounting, Pohoda.Invoice.SetDateDue and Pohoda.Invoice.SetDateOrder take a non-null argument. In PHP each also accepts null and passes it to `validateItem`. The symbol setters then store the empty string that stripping makes of null. The others store null, so the property is unset again and the export leaves out or empties its element. What the `Validators` checks do with null is not part of this model, so these calls are not modelled.
- `Scalar` keeps a value's rendered text and its truthiness as two independent components. PHP ties them: a value rendering to "" or "0" is false, and a false scalar renders to "", "0" or "-0". The model does not state that link, so it admits combinations such as a true "0".

## Findings

| source | as written | input that shows it | evidently intended | confidence | as-written member | corrected member |
|---|---|---|---|---|---|---|
| src/Invoice.php:212 | the list of accepted codes is built with `explode(",", array_keys($payments))`. That passes an array where a string is expected: PHP 7 yields null and an empty listing, and PHP 8 throws | `setPaymentType("bitcoin")` | the codes joined with `", "` after the prefix, as `implode` would give | high (not executed) | Pohoda.UnsupportedPaymentMessageAsWritten | Pohoda.UnsupportedPaymentMessage |
