/**
 * How a CSS value reads once parsed. CSS Syntax Module Level 3 ("consume a
 * function") closes a function that is still open at the end of the input,
 * so `rgba(0,0,0,0.5` and `rgba(0,0,0,0.5)` set the same background. Quoted
 * strings and escapes are not modelled.
 */
module Css {
  import opened Dom

  predicate ParenFree(s: string) {
    '(' !in s && ')' !in s
  }

  /** The number of parentheses still open after reading `s` left to right. */
  function Depth(s: string): nat {
    if s == [] then 0
    else
      var d := Depth(s[..|s| - 1]);
      if s[|s| - 1] == '(' then d + 1
      else if s[|s| - 1] == ')' && d > 0 then d - 1
      else d
  }

  function Repeat(c: char, k: nat): (r: string)
    ensures |r| == k && forall i :: 0 <= i < k ==> r[i] == c
  {
    if k == 0 then [] else Repeat(c, k - 1) + [c]
  }

  /** A value with every function that the end of input leaves open closed. */
  function CloseValue(v: string): (r: string)
    ensures Depth(r) == 0
    ensures v <= r
  {
    ClosingBalances(v, Depth(v));
    v + Repeat(')', Depth(v))
  }

  function CloseDecls(ds: seq<Attr>): (r: seq<Attr>)
    ensures |r| == |ds|
    ensures forall i :: 0 <= i < |ds| ==> r[i] == Attr(ds[i].name, CloseValue(ds[i].value))
  {
    seq(|ds|, i requires 0 <= i < |ds| => Attr(ds[i].name, CloseValue(ds[i].value)))
  }

  /** Every style value in the tree rooted at `n`, read as CSS reads it. */
  function CloseStyles(n: Node): (r: Node)
    ensures r.(style := n.style, children := n.children) == n
    ensures |r.children| == |n.children|
  {
    n.(style := CloseDecls(n.style),
       children := seq(|n.children|, i requires 0 <= i < |n.children| => CloseStyles(n.children[i])))
  }

  /** No style declaration anywhere in the tree. */
  predicate Unstyled(n: Node) {
    n.style == [] && forall i :: 0 <= i < |n.children| ==> Unstyled(n.children[i])
  }

  lemma {:induction false} ClosingBalances(v: string, k: nat)
    requires Depth(v) == k
    ensures Depth(v + Repeat(')', k)) == 0
    decreases k
  {
    if k > 0 {
      var w := v + Repeat(')', k - 1);
      assert v + Repeat(')', k) == w + [')'];
      assert (w + [')'])[..|w|] == w;
      DepthAfterClosers(v, k - 1);
    } else {
      assert v + Repeat(')', 0) == v;
    }
  }

  lemma {:induction false} DepthAfterClosers(v: string, j: nat)
    requires j <= Depth(v)
    ensures Depth(v + Repeat(')', j)) == Depth(v) - j
    decreases j
  {
    if j == 0 {
      assert v + Repeat(')', 0) == v;
    } else {
      var w := v + Repeat(')', j - 1);
      assert v + Repeat(')', j) == w + [')'];
      assert (w + [')'])[..|w|] == w;
      DepthAfterClosers(v, j - 1);
    }
  }

  /** Text without parentheses leaves the depth where it was. */
  lemma {:induction false} DepthParenFree(p: string, s: string)
    requires ParenFree(s)
    ensures Depth(p + s) == Depth(p)
    decreases |s|
  {
    if s == [] {
      assert p + s == p;
    } else {
      var t := s[..|s| - 1];
      assert (p + s)[..|p + s| - 1] == p + t;
      assert s[|s| - 1] in s;
      assert ParenFree(t) by {
        forall c | c in t ensures c in s {
          var i :| 0 <= i < |t| && t[i] == c;
          assert s[i] == c;
        }
      }
      DepthParenFree(p, t);
    }
  }

  /** A value already balanced is read as written. */
  lemma BalancedUnchanged(v: string)
    requires Depth(v) == 0
    ensures CloseValue(v) == v
  {
    assert v + Repeat(')', 0) == v;
  }

  /** Closing changes nothing in a tree without style declarations. */
  lemma {:induction false} CloseStylesUnstyled(n: Node)
    requires Unstyled(n)
    ensures CloseStyles(n) == n
    decreases n
  {
    forall i | 0 <= i < |n.children|
      ensures CloseStyles(n.children[i]) == n.children[i]
    {
      CloseStylesUnstyled(n.children[i]);
    }
    assert CloseStyles(n).children == n.children;
  }

  /** Reading styles commutes with appending a child. */
  lemma CloseStylesAppend(n: Node, c: Node)
    ensures CloseStyles(AppendChild(n, c)) == AppendChild(CloseStyles(n), CloseStyles(c))
  {
    var l, r := CloseStyles(AppendChild(n, c)), AppendChild(CloseStyles(n), CloseStyles(c));
    assert l.children == r.children;
  }

  /** One function left open is closed by one parenthesis. */
  lemma CloseOneOpen(p: string, s: string)
    requires ParenFree(p) && ParenFree(s)
    ensures CloseValue(p + "(" + s) == p + "(" + s + ")"
  {
    DepthParenFree([], p);
    assert [] + p == p;
    assert (p + "(")[..|p|] == p;
    DepthParenFree(p + "(", s);
    assert Repeat(')', 1) == ")";
  }
}
