/** The part of `SimpleXMLElement` the export uses: elements with a
    prefixed name, an optional text, attributes and ordered children. Namespace
    URIs are not modelled; the `inv:`/`typ:` prefix stays part of the name. */
module Xml {
  import opened Values

  datatype Attr = Attr(key: string, value: string)

  datatype Node = Node(name: string, text: Option<string>, attrs: seq<Attr>, children: seq<Node>)

  /** `$parent->addChild(name, value)` for a child that gets no children of its own. */
  function Leaf(name: string, text: Option<string>): Node
  {
    Node(name, text, [], [])
  }

  /** `$parent->addChild(name)` followed by adding `children` to the new element. */
  function Element(name: string, children: seq<Node>): Node
  {
    Node(name, None, [], children)
  }

  /** A child that is added only when `gate` holds. */
  function Optional(gate: bool, n: Node): (r: seq<Node>)
    ensures |r| <= 1
    ensures n in r <==> gate
  {
    if gate then [n] else []
  }

  /** `addChild` on a parent: the new child goes after all existing ones and
      nothing else about the parent changes. */
  function AddChild(parent: Node, child: Node): (r: Node)
    ensures r.name == parent.name && r.text == parent.text && r.attrs == parent.attrs
    ensures |r.children| == |parent.children| + 1
    ensures r.children[..|parent.children|] == parent.children
    ensures r.children[|parent.children|] == child
  {
    parent.(children := parent.children + [child])
  }

  /** The element names of a list of siblings, in document order. */
  function Names(ns: seq<Node>): (r: seq<string>)
    ensures |r| == |ns|
  {
    if ns == [] then [] else [ns[0].name] + Names(ns[1..])
  }

  /** The name an `Optional` child contributes. */
  function OptionalName(gate: bool, name: string): seq<string>
  {
    if gate then [name] else []
  }

  /** Each sibling's name stands at its position. */
  lemma {:induction false} NamesAt(ns: seq<Node>)
    ensures forall i :: 0 <= i < |ns| ==> Names(ns)[i] == ns[i].name
  {
    if ns != [] {
      NamesAt(ns[1..]);
      assert forall i :: 1 <= i < |ns| ==> Names(ns)[i] == Names(ns[1..])[i - 1];
    }
  }

  /** The names of concatenated siblings are the concatenated names. */
  lemma {:induction false} NamesConcat(a: seq<Node>, b: seq<Node>)
    ensures Names(a + b) == Names(a) + Names(b)
  {
    if a == [] {
      assert a + b == b;
    } else {
      assert (a + b)[1..] == a[1..] + b;
      NamesConcat(a[1..], b);
    }
  }

  lemma NamesOptional(gate: bool, n: Node)
    ensures Names(Optional(gate, n)) == OptionalName(gate, n.name)
  {
    if gate {
      assert Optional(gate, n) == [n];
      assert [n][1..] == [];
    }
  }

  /** A name occurs among concatenated siblings exactly when it occurs on
      either side. */
  lemma NameInConcat(a: seq<Node>, b: seq<Node>, x: string)
    ensures x in Names(a + b) <==> x in Names(a) || x in Names(b)
  {
    NamesConcat(a, b);
  }

  lemma NameInOptional(gate: bool, n: Node, x: string)
    ensures x in Names(Optional(gate, n)) <==> gate && n.name == x
  {
    NamesOptional(gate, n);
  }

  /** Wherever the siblings hold an element named like `n`, that element is
      `n`: its text, attributes and children are the ones `n` has. */
  predicate Writes(ns: seq<Node>, n: Node)
  {
    forall i :: 0 <= i < |ns| && ns[i].name == n.name ==> ns[i] == n
  }

  /** Two runs of siblings that both write `n` write it together. */
  lemma WritesJoin(a: seq<Node>, b: seq<Node>, n: Node)
    requires Writes(a, n) && Writes(b, n)
    ensures Writes(a + b, n)
  {
    forall i | 0 <= i < |a + b| && (a + b)[i].name == n.name
      ensures (a + b)[i] == n
    {
      if i >= |a| {
        assert (a + b)[i] == b[i - |a|];
      }
    }
  }

  /** An optional child writes `n` when, if it carries `n`'s name, it is `n`. */
  lemma WritesOptional(gate: bool, m: Node, n: Node)
    requires m.name == n.name ==> m == n
    ensures Writes(Optional(gate, m), n)
  {
  }

  /** `foreach ($xs as $x) { render $x into $parent->addChild(...) }`: one child
      per element, appended in order after the existing children. */
  method AppendEach<T>(parent: Node, xs: seq<T>, render: T -> Node) returns (r: Node)
    ensures r.name == parent.name && r.text == parent.text && r.attrs == parent.attrs
    ensures r.children == parent.children + MapAll(render, xs)
  {
    r := parent;
    var i := 0;
    while i < |xs|
      invariant 0 <= i <= |xs|
      invariant r == parent.(children := parent.children + MapAll(render, xs[..i]))
    {
      assert xs[..i + 1][..i] == xs[..i];
      r := AddChild(r, render(xs[i]));
      i := i + 1;
    }
    assert xs[..i] == xs;
  }
}
