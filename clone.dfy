/**
 * The template-clone backend. A `Context` compiles each of nine fixed HTML
 * snippets once, keeps the result in `templates` and hands out copies; the
 * renderers edit their copy (a class, a `data-*` attribute, the text, the
 * style) and append child elements. Because a `Node` is a value, a copy
 * is independent of the cached template.
 */
module Clone {
  import opened Wrappers
  import opened Decimal
  import opened UiState
  import opened Dom
  import opened Css
  import opened View

  const TableCellSnippet: string := "<td class=TableCell></td>"
  const TableRowSnippet: string := "<tr class=TableRow></tr>"
  const TableSnippet: string := "<table class=Table><tbody></tbody></table>"
  const AnimBoxSnippet: string := "<div class=AnimBox></div>"
  const AnimSnippet: string := "<div class=Anim></div>"
  const TreeLeafSnippet: string := "<li class=TreeLeaf></li>"
  const TreeNodeSnippet: string := "<ul class=TreeNode></ul>"
  const TreeSnippet: string := "<div class=Tree></div>"
  const MainSnippet: string := "<div class=Main></div>"

  const Snippets: set<string> :=
    {TableCellSnippet, TableRowSnippet, TableSnippet, AnimBoxSnippet, AnimSnippet,
     TreeLeafSnippet, TreeNodeSnippet, TreeSnippet, MainSnippet}

  /**
   * What the `<template>` element's parser makes of a snippet: its first
   * element child. Only the nine snippets the renderers pass are modelled.
   */
  function Compile(html: string): Node
    requires html in Snippets
  {
    if html == TableCellSnippet then Element("td", ["TableCell"])
    else if html == TableRowSnippet then Element("tr", ["TableRow"])
    else if html == TableSnippet then AppendChild(Element("table", ["Table"]), Element("tbody", []))
    else if html == AnimBoxSnippet then Element("div", ["AnimBox"])
    else if html == AnimSnippet then Element("div", ["Anim"])
    else if html == TreeLeafSnippet then Element("li", ["TreeLeaf"])
    else if html == TreeNodeSnippet then Element("ul", ["TreeNode"])
    else if html == TreeSnippet then Element("div", ["Tree"])
    else Element("div", ["Main"])
  }

  /** Every cached entry is keyed by a snippet and holds that snippet compiled. */
  predicate CacheValid(m: map<string, Node>) {
    m.Keys <= Snippets
    && Stored(m, TableCellSnippet) && Stored(m, TableRowSnippet) && Stored(m, TableSnippet)
    && Stored(m, AnimBoxSnippet) && Stored(m, AnimSnippet) && Stored(m, TreeLeafSnippet)
    && Stored(m, TreeNodeSnippet) && Stored(m, TreeSnippet) && Stored(m, MainSnippet)
  }

  /** The entry for snippet `k`, if there is one, is `k` compiled. */
  predicate Stored(m: map<string, Node>, k: string)
    requires k in Snippets
  {
    k in m ==> m[k] == Compile(k)
  }

  /** The cache never holds more than the nine snippets. */
  lemma CacheBound(m: map<string, Node>)
    requires CacheValid(m)
    ensures |m| <= 9
  {
    assert m.Keys <= Snippets;
    SubsetCardinality(m.Keys, Snippets);
    SnippetCount();
  }

  lemma SnippetCount()
    ensures |Snippets| == 9
  {
  }

  lemma {:induction false} SubsetCardinality<T>(a: set<T>, b: set<T>)
    requires a <= b
    ensures |a| <= |b|
    decreases b
  {
    if a != {} {
      var x :| x in a;
      SubsetCardinality(a - {x}, b - {x});
    }
  }

  /** `Context`: the compile-once, copy-many template cache. */
  class Context {
    var templates: map<string, Node>

    constructor()
      ensures templates == map[]
    {
      templates := map[];
    }

    /**
     * A hit copies the stored template and leaves the cache alone; a miss
     * compiles the snippet, stores it under that exact key and returns a copy.
     */
    method GetTemplate(html: string) returns (el: Node)
      requires html in Snippets
      modifies this
      ensures html in old(templates) ==> templates == old(templates) && el == old(templates)[html]
      ensures html !in old(templates) ==> templates == old(templates)[html := Compile(html)] && el == Compile(html)
      ensures templates.Keys == old(templates).Keys + {html}
      ensures forall k :: k in old(templates) ==> k in templates && templates[k] == old(templates)[k]
      ensures CacheValid(old(templates)) ==> CacheValid(templates) && el == Compile(html)
    {
      if html in templates {
        el := templates[html];
      } else {
        var template := Compile(html);
        el := template;
        templates := templates[html := template];
      }
    }
  }

  method RenderTableCell(ctx: Context, props: string) returns (el: Node)
    requires CacheValid(ctx.templates)
    modifies ctx
    ensures CacheValid(ctx.templates) && old(ctx.templates).Keys <= ctx.templates.Keys
    ensures el == CellView(props)
  {
    el := ctx.GetTemplate(TableCellSnippet);
    el := SetAttribute(el, "data-text", props);
    el := SetTextContent(el, props);
  }

  method RenderTableRow(ctx: Context, data: TableItemState) returns (el: Node)
    requires CacheValid(ctx.templates)
    modifies ctx
    ensures CacheValid(ctx.templates) && old(ctx.templates).Keys <= ctx.templates.Keys
    ensures el == RowView(data)
  {
    el := ctx.GetTemplate(TableRowSnippet);
    ghost var template := el;
    if data.active {
      el := AddClass(el, "active");
    }
    var id := ToDecimal(data.id);
    el := SetAttribute(el, "data-id", id);
    RowEdits(data, template);
    ghost var shell := el;
    ghost var cells := RowCells(data);
    var poundId := "#" + id;
    var cell := RenderTableCell(ctx, poundId);
    el := AppendChild(el, cell);
    for i := 0 to |data.props|
      invariant CacheValid(ctx.templates) && old(ctx.templates).Keys <= ctx.templates.Keys
      invariant el == shell.(children := cells[..i + 1])
    {
      cell := RenderTableCell(ctx, data.props[i]);
      el := AppendChild(el, cell);
      assert cells[..i + 2] == cells[..i + 1] + [cell];
    }
    assert cells[..|data.props| + 1] == cells;
  }

  /** The row's cells: `#id`, then one per prop. */
  ghost function RowCells(data: TableItemState): (r: seq<Node>)
    ensures r == RowView(data).children
    ensures |r| == 1 + |data.props| && r[0] == CellView("#" + ToDecimal(data.id))
    ensures forall i :: 0 <= i < |data.props| ==> r[i + 1] == CellView(data.props[i])
  {
    [CellView("#" + ToDecimal(data.id))] + CellViews(data.props)
  }

  /** The class and `data-id` edits turn a row template into the row without its cells. */
  lemma RowEdits(data: TableItemState, template: Node)
    requires template == Compile(TableRowSnippet)
    ensures SetAttribute(if data.active then AddClass(template, "active") else template, "data-id", ToDecimal(data.id))
            == RowView(data).(children := [])
  {
  }

  /** The rows go into the template's first element child, the `tbody`, not into the table. */
  method RenderTable(ctx: Context, data: TableState) returns (el: Node)
    requires CacheValid(ctx.templates)
    modifies ctx
    ensures CacheValid(ctx.templates) && old(ctx.templates).Keys <= ctx.templates.Keys
    ensures el == TableView(data)
  {
    el := ctx.GetTemplate(TableSnippet);
    assert RowViews(data.items[..0]) == [];
    assert el == TableView(TableState(data.items[..0]));
    for i := 0 to |data.items|
      invariant CacheValid(ctx.templates)
      invariant old(ctx.templates).Keys <= ctx.templates.Keys
      invariant el == TableView(TableState(data.items[..i]))
    {
      var row := RenderTableRow(ctx, data.items[i]);
      el := AppendToFirstChild(el, row);
      assert RowViews(data.items[..i + 1]) == RowViews(data.items[..i]) + [row];
    }
    assert data.items[..|data.items|] == data.items;
  }

  /**
   * The style is set property by property. The background is written as
   * `rgba(0,0,0,` and the alpha with no closing parenthesis; CSS closes it
   * when it parses the value, so the box reads as the view's box.
   */
  method RenderAnimBox(ctx: Context, fmt: AnimText, props: AnimBoxState) returns (el: Node)
    requires CacheValid(ctx.templates)
    modifies ctx
    ensures CacheValid(ctx.templates) && old(ctx.templates).Keys <= ctx.templates.Keys
    ensures StyleProperty(el, "background") == Some("rgba(0,0,0," + fmt.alpha(props.time))
    ensures el.(style := []) == AnimBoxView(fmt, props).(style := [])
    ensures CloseStyles(el) == AnimBoxView(fmt, props)
  {
    el := ctx.GetTemplate(AnimBoxSnippet);
    var borderRadius := fmt.radius(props.time) + "px";
    el := SetStyleProperty(el, "border-radius", borderRadius);
    var alpha := "rgba(0,0,0," + fmt.alpha(props.time);
    el := SetStyleProperty(el, "background", alpha);
    el := SetAttribute(el, "data-id", ToDecimal(props.id));
    BoxStyleEdits(Compile(AnimBoxSnippet), borderRadius, alpha);
    BoxStyleCloses(fmt, props.time);
  }

  /** Setting the two properties on a template without style appends them in that order. */
  lemma BoxStyleEdits(template: Node, radius: string, background: string)
    requires template.style == []
    ensures SetStyleProperty(SetStyleProperty(template, "border-radius", radius), "background", background).style
            == [Attr("border-radius", radius), Attr("background", background)]
    ensures Lookup([Attr("border-radius", radius), Attr("background", background)], "background") == Some(background)
  {
    assert [Attr("border-radius", radius), Attr("background", background)][1..] == [Attr("background", background)];
    var first := SetStyleProperty(template, "border-radius", radius);
    assert first.style == [Attr("border-radius", radius)];
    assert Lookup(first.style, "background") == None;
    UpsertShape(first.style, "background", background);
  }

  /** The two declarations the clone sets read as the markup's inline style. */
  lemma BoxStyleCloses(fmt: AnimText, time: F32)
    ensures CloseDecls([Attr("border-radius", fmt.radius(time) + "px"),
                        Attr("background", "rgba(0,0,0," + fmt.alpha(time))]) == BoxStyle(fmt, time)
  {
    var r, al := fmt.radius(time), fmt.alpha(time);
    DepthParenFree([], r + "px");
    assert [] + (r + "px") == r + "px";
    BalancedUnchanged(r + "px");
    CloseOneOpen("rgba", "0,0,0," + al);
    assert "rgba" + "(" + ("0,0,0," + al) == "rgba(0,0,0," + al;
  }

  method RenderAnim(ctx: Context, fmt: AnimText, props: AnimState) returns (el: Node)
    requires CacheValid(ctx.templates)
    modifies ctx
    ensures CacheValid(ctx.templates) && old(ctx.templates).Keys <= ctx.templates.Keys
    ensures CloseStyles(el) == AnimView(fmt, props)
  {
    el := ctx.GetTemplate(AnimSnippet);
    ghost var shell := el;
    ghost var boxes := AnimBoxViews(fmt, props.items);
    for i := 0 to |props.items|
      invariant CacheValid(ctx.templates)
      invariant old(ctx.templates).Keys <= ctx.templates.Keys
      invariant CloseStyles(el) == shell.(children := boxes[..i])
    {
      var box := RenderAnimBox(ctx, fmt, props.items[i]);
      CloseStylesAppend(el, box);
      el := AppendChild(el, box);
      assert boxes[..i + 1] == boxes[..i] + [CloseStyles(box)];
    }
    assert boxes[..|props.items|] == boxes;
  }

  method RenderTreeLeaf(ctx: Context, props: TreeNodeState) returns (el: Node)
    requires CacheValid(ctx.templates)
    modifies ctx
    ensures CacheValid(ctx.templates) && old(ctx.templates).Keys <= ctx.templates.Keys
    ensures el == TreeLeafView(props)
  {
    el := ctx.GetTemplate(TreeLeafSnippet);
    el := SetTextContent(el, ToDecimal(props.id));
  }

  method RenderTreeNode(ctx: Context, props: TreeNodeState) returns (el: Node)
    requires CacheValid(ctx.templates)
    modifies ctx
    ensures CacheValid(ctx.templates)
    ensures old(ctx.templates).Keys <= ctx.templates.Keys
    ensures el == TreeNodeView(props)
    decreases props
  {
    el := ctx.GetTemplate(TreeNodeSnippet);
    if props.children.Present? {
      var children := props.children.nodes;
      for i := 0 to |children|
        invariant CacheValid(ctx.templates)
        invariant old(ctx.templates).Keys <= ctx.templates.Keys
        invariant el == Element("ul", ["TreeNode"]).(children := TreeChildViews(children[..i]))
      {
        var child := children[i];
        var sub;
        if child.container {
          sub := RenderTreeNode(ctx, child);
        } else {
          sub := RenderTreeLeaf(ctx, child);
        }
        el := AppendChild(el, sub);
        assert TreeChildViews(children[..i + 1]) == TreeChildViews(children[..i]) + [sub];
      }
      assert children[..|children|] == children;
    }
  }

  method RenderTree(ctx: Context, props: TreeState) returns (el: Node)
    requires CacheValid(ctx.templates)
    modifies ctx
    ensures CacheValid(ctx.templates)
    ensures old(ctx.templates).Keys <= ctx.templates.Keys
    ensures el == TreeView(props)
  {
    el := ctx.GetTemplate(TreeSnippet);
    var root := RenderTreeNode(ctx, props.root);
    el := AppendChild(el, root);
  }

  method RenderMain(ctx: Context, fmt: AnimText, data: AppState) returns (el: Node)
    requires CacheValid(ctx.templates)
    modifies ctx
    ensures CacheValid(ctx.templates)
    ensures old(ctx.templates).Keys <= ctx.templates.Keys
    ensures CloseStyles(el) == MainView(fmt, data)
  {
    el := ctx.GetTemplate(MainSnippet);
    match data.location {
      case "table" =>
        var table := RenderTable(ctx, data.table);
        TableUnstyled(data.table);
        CloseStylesAppend(el, table);
        el := AppendChild(el, table);
      case "anim" =>
        var anim := RenderAnim(ctx, fmt, data.anim);
        CloseStylesAppend(el, anim);
        el := AppendChild(el, anim);
      case "tree" =>
        var tree := RenderTree(ctx, data.tree);
        TreeUnstyled(data.tree);
        CloseStylesAppend(el, tree);
        el := AppendChild(el, tree);
      case _ =>
    }
  }

  /** Tables carry no style: reading styles leaves them as they are. */
  lemma TableUnstyled(t: TableState)
    ensures CloseStyles(TableView(t)) == TableView(t)
  {
    var body := TableView(t).children[0];
    forall i | 0 <= i < |body.children|
      ensures Unstyled(body.children[i])
    {
      var row := body.children[i];
      assert forall j :: 0 <= j < |row.children| ==> Unstyled(row.children[j]);
    }
    assert Unstyled(body);
    CloseStylesUnstyled(TableView(t));
  }

  lemma TreeUnstyled(t: TreeState)
    ensures CloseStyles(TreeView(t)) == TreeView(t)
  {
    TreeNodeUnstyled(t.root);
    CloseStylesUnstyled(TreeView(t));
  }

  lemma {:induction false} TreeNodeUnstyled(t: TreeNodeState)
    ensures Unstyled(TreeNodeView(t))
    decreases t
  {
    var n := TreeNodeView(t);
    if t.children.Present? {
      var cs := t.children.nodes;
      forall i | 0 <= i < |cs|
        ensures Unstyled(n.children[i])
      {
        assert n.children[i] == TreeChildView(cs[i]);
        if cs[i].container {
          TreeNodeUnstyled(cs[i]);
        }
      }
    }
  }

  /**
   * The clone backend's `update`: render the frame, then replace whatever
   * the container held with the one new element.
   */
  class App {
    const ctx: Context
    var mounted: seq<Node>

    constructor()
      ensures fresh(ctx) && ctx.templates == map[] && mounted == []
    {
      ctx := new Context();
      mounted := [];
    }

    method Update(fmt: AnimText, state: AppState)
      requires CacheValid(ctx.templates)
      modifies this, ctx
      ensures CacheValid(ctx.templates) && old(ctx.templates).Keys <= ctx.templates.Keys
      ensures |ctx.templates| <= 9
      ensures |mounted| == 1 && CloseStyles(mounted[0]) == MainView(fmt, state)
    {
      var el := RenderMain(ctx, fmt, state);
      mounted := [];
      mounted := mounted + [el];
      CacheBound(ctx.templates);
    }
  }
}
