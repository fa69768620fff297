/** The field checks the invoice setters run (the `Validators` class, whose
    source is not part of this model: each check is stated here by what it
    accepts), and the soft-error message one setter call produces. */
module Validators {
  import opened Values
  import opened Dates

  /** The checks `validateItem` can ask for, in the order it runs them. */
  datatype Check = MaxLength(limit: nat) | Numeric | IsDate

  /** A length or digit check is only ever run on a string; a date check
      also on a `DateTime` object. */
  predicate Applies(c: Check, v: Input)
  {
    c.IsDate? || v.Text?
  }

  /** `assertMaxLength`, `assertNumeric`, `assertDate` succeed. */
  predicate Passes(c: Check, v: Input)
    requires Applies(c, v)
  {
    match c
    case MaxLength(n) => |v.s| <= n
    case Numeric => AllDigits(v.s)
    case IsDate => v.DateTime? || IsDateText(v.s)
  }

  /** The text of the exception a failing check throws. */
  function Message(c: Check): string
  {
    match c
    case MaxLength(n) => "is longer than " + Decimal(n) + " characters"
    case Numeric => "is not numeric"
    case IsDate => "is not a date"
  }

  /** The checks one `validateItem` call requests: a maximal length when it
      is non-zero (PHP treats 0 and `false` alike), then numeric, then date. */
  function Requested(maxLength: nat, isNumeric: bool, isDate: bool): seq<Check>
  {
    (if maxLength > 0 then [MaxLength(maxLength)] else [])
    + (if isNumeric then [Numeric] else [])
    + (if isDate then [IsDate] else [])
  }

  /** The error `validateItem` appends for a value, if any: the checks run in
      order and the first one to throw ends the `try`, so at most one message
      results, it is `name + " " + message` of the first failing check, and
      none results exactly when every requested check passes. */
  function Validate(name: string, v: Input, maxLength: nat, isNumeric: bool, isDate: bool): (r: Option<string>)
    requires v.DateTime? ==> maxLength == 0 && !isNumeric
    ensures var cs := Requested(maxLength, isNumeric, isDate);
      r.None? <==> forall k :: 0 <= k < |cs| ==> Passes(cs[k], v)
    ensures var cs := Requested(maxLength, isNumeric, isDate);
      r.Some? ==> exists k :: 0 <= k < |cs| && !Passes(cs[k], v)
                          && (forall j :: 0 <= j < k ==> Passes(cs[j], v))
                          && r.value == name + " " + Message(cs[k])
  {
    var cs := Requested(maxLength, isNumeric, isDate);
    if maxLength > 0 && !Passes(MaxLength(maxLength), v) then
      assert cs[0] == MaxLength(maxLength);
      Some(name + " " + Message(MaxLength(maxLength)))
    else if isNumeric && !Passes(Numeric, v) then
      var k := if maxLength > 0 then 1 else 0;
      assert cs[k] == Numeric;
      Some(name + " " + Message(Numeric))
    else if isDate && !Passes(IsDate, v) then
      var k := |cs| - 1;
      assert cs[k] == IsDate;
      Some(name + " " + Message(IsDate))
    else
      None
  }
}
