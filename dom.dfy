/**
 * An abstract DOM element as a value: tag, class list, inline style
 * declarations, other attributes (in insertion order), text content and
 * element children. Because a Node is a value, `cloneNode(true)` is a
 * plain copy, and editing a copy can never reach the original.
 */
module Dom {
  import opened Wrappers

  /** An attribute `name='value'`, or a CSS declaration `name:value`. */
  datatype Attr = Attr(name: string, value: string)

  datatype Node = Node(
    tag: string,
    classes: seq<string>,
    style: seq<Attr>,
    attrs: seq<Attr>,
    text: string,
    children: seq<Node>)

  /** An element with the given classes and nothing else. */
  function Element(tag: string, classes: seq<string>): Node {
    Node(tag, classes, [], [], "", [])
  }

  /** The value stored under `name`, first occurrence first. */
  function Lookup(ps: seq<Attr>, name: string): Option<string> {
    if ps == [] then None
    else if ps[0].name == name then Some(ps[0].value)
    else Lookup(ps[1..], name)
  }

  /**
   * Store `value` under `name`: in place when the name is present,
   * at the end otherwise, as `setAttribute` and `style.setProperty` do.
   */
  function Upsert(ps: seq<Attr>, name: string, value: string): seq<Attr> {
    if ps == [] then [Attr(name, value)]
    else if ps[0].name == name then [Attr(name, value)] + ps[1..]
    else [ps[0]] + Upsert(ps[1..], name, value)
  }

  /** After an upsert the name reads the new value and every other name reads as before. */
  lemma {:induction false} UpsertLookup(ps: seq<Attr>, name: string, value: string, k: string)
    ensures Lookup(Upsert(ps, name, value), k) == if k == name then Some(value) else Lookup(ps, k)
    decreases |ps|
  {
    if ps != [] && ps[0].name != name {
      var r := Upsert(ps, name, value);
      assert r[1..] == Upsert(ps[1..], name, value);
      UpsertLookup(ps[1..], name, value, k);
    }
  }

  /** A new name goes at the end; a known one is overwritten in place. */
  lemma {:induction false} UpsertShape(ps: seq<Attr>, name: string, value: string)
    ensures Lookup(ps, name) == None ==> Upsert(ps, name, value) == ps + [Attr(name, value)]
    ensures |Upsert(ps, name, value)| == |ps| + (if Lookup(ps, name) == None then 1 else 0)
    decreases |ps|
  {
    if ps != [] && ps[0].name != name {
      UpsertShape(ps[1..], name, value);
      assert [ps[0]] + ps[1..] == ps;
      assert [ps[0]] + (ps[1..] + [Attr(name, value)]) == ps + [Attr(name, value)];
    }
  }

  function GetAttribute(n: Node, name: string): Option<string> {
    Lookup(n.attrs, name)
  }

  function SetAttribute(n: Node, name: string, value: string): Node {
    n.(attrs := Upsert(n.attrs, name, value))
  }

  function StyleProperty(n: Node, property: string): Option<string> {
    Lookup(n.style, property)
  }

  /** `el.style().set_property(property, value)`. */
  function SetStyleProperty(n: Node, property: string, value: string): Node {
    n.(style := Upsert(n.style, property, value))
  }

  /** A class token: non-empty and free of white space (DOMTokenList throws otherwise). */
  predicate IsToken(c: string) {
    c != [] && forall i :: 0 <= i < |c| ==> c[i] != ' '
  }

  /** `class_list().add_1(c)`: appends `c` unless it is already there. */
  function AddClass(n: Node, c: string): Node
    requires IsToken(c)
  {
    if c in n.classes then n else n.(classes := n.classes + [c])
  }

  /** Adding a class keeps the others in order, adds `c` once, and touches nothing else. */
  lemma AddClassShape(n: Node, c: string)
    requires IsToken(c)
    ensures forall x :: x in AddClass(n, c).classes <==> x in n.classes || x == c
    ensures n.classes <= AddClass(n, c).classes
    ensures c in n.classes ==> AddClass(n, c) == n
    ensures c !in n.classes ==> AddClass(n, c).classes == n.classes + [c]
    ensures AddClass(n, c).(classes := n.classes) == n
  {
  }

  /** `set_text_content(Some(t))`: the text replaces every child. */
  function SetTextContent(n: Node, t: string): Node {
    n.(text := t, children := [])
  }

  function AppendChild(n: Node, c: Node): Node {
    n.(children := n.children + [c])
  }

  /** Appends `c` to the first element child of `n`, which stays in place. */
  function AppendToFirstChild(n: Node, c: Node): (r: Node)
    requires n.children != []
    ensures |r.children| == |n.children| && r.children[1..] == n.children[1..]
    ensures r.children[0] == AppendChild(n.children[0], c)
    ensures r.(children := n.children) == n
  {
    n.(children := [AppendChild(n.children[0], c)] + n.children[1..])
  }

  /** The strings of `xs` separated by `sep`. */
  function Join(xs: seq<string>, sep: string): string {
    if xs == [] then ""
    else if |xs| == 1 then xs[0]
    else Join(xs[..|xs| - 1], sep) + sep + xs[|xs| - 1]
  }

  /** `el.class_name()`: the value of the class attribute. */
  function ClassName(n: Node): string {
    Join(n.classes, " ")
  }

  lemma JoinTwo(a: string, b: string, sep: string)
    ensures Join([a, b], sep) == a + sep + b
  {
    assert [a, b][..1] == [a];
  }
}
