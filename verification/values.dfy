/** PHP values as the invoice class stores them and hands them to the XML writer. */
module Values {

  /** A nullable value: `None` stands for PHP's null, i.e. a property that was never set. */
  datatype Option<+T> = None | Some(value: T)

  /** The value as a list of at most one element. */
  function ToSeq<T>(o: Option<T>): (r: seq<T>)
    ensures |r| <= 1
    ensures r == [] <==> o.None?
    ensures o.Some? ==> r[0] == o.value
  {
    match o
    case None => []
    case Some(v) => [v]
  }

  /** A PHP scalar that reaches the XML writer untouched: a price, a quantity,
      a VAT rate, a stock reference. The export never computes with such a value;
      it only asks whether it is null, whether PHP treats it as true, and which
      text it renders to. The two are kept as separate, unrelated components:
      in PHP a value that renders to "" or "0" is always false and a false
      value renders to "", "0" or "-0", but nothing here ties `truthy` to
      `text`, so a `Val("0", true)` is expressible. */
  datatype Scalar = Null | Val(text: string, truthy: bool)

  /** The text `addChild` writes for the value; null writes no text. */
  function Rendered(v: Scalar): Option<string>
  {
    match v
    case Null => None
    case Val(t, _) => Some(t)
  }

  /** `is_null($v) === false` */
  predicate IsSet(v: Scalar)
  {
    v.Val?
  }

  /** `if ($v)`: PHP truthiness; null is false. */
  predicate Truthy(v: Scalar)
  {
    v.Val? && v.truthy
  }

  /** `f` applied to every element, in order. */
  function MapAll<T, U>(f: T -> U, xs: seq<T>): (r: seq<U>)
    ensures |r| == |xs|
    ensures forall i :: 0 <= i < |xs| ==> r[i] == f(xs[i])
  {
    if xs == [] then [] else MapAll(f, xs[..|xs| - 1]) + [f(xs[|xs| - 1])]
  }
}
