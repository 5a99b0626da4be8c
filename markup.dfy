/**
 * The markup backend: `render_*` append HTML text to one reused `String`.
 * Here the text of an element tree is `Serialize`, and every renderer is
 * proved to append exactly `Serialize` of the view its input produces.
 */
module Markup {
  import opened Decimal
  import opened UiState
  import opened Dom
  import opened View

  function ClassAttr(classes: seq<string>): string {
    if classes == [] then "" else " class='" + Join(classes, " ") + "'"
  }

  function Declarations(ds: seq<Attr>): string {
    if ds == [] then ""
    else if |ds| == 1 then ds[0].name + ":" + ds[0].value
    else Declarations(ds[..|ds| - 1]) + ";" + ds[|ds| - 1].name + ":" + ds[|ds| - 1].value
  }

  function StyleAttr(ds: seq<Attr>): string {
    if ds == [] then "" else " style='" + Declarations(ds) + "'"
  }

  function AttrText(a: Attr): string {
    " " + a.name + "='" + a.value + "'"
  }

  function AttrList(ps: seq<Attr>): string {
    if ps == [] then "" else AttrList(ps[..|ps| - 1]) + AttrText(ps[|ps| - 1])
  }

  /** Everything of an opening tag before its data attributes. */
  function TagHead(n: Node): string {
    "<" + n.tag + ClassAttr(n.classes) + StyleAttr(n.style)
  }

  function OpenTag(n: Node): string {
    TagHead(n) + AttrList(n.attrs) + ">"
  }

  function CloseTag(n: Node): string {
    "</" + n.tag + ">"
  }

  /** HTML text of an element tree, with no escaping (`lib.rs` escapes nothing). */
  function Serialize(n: Node): string
    decreases n
  {
    OpenTag(n) + n.text + SerializeAll(n.children) + CloseTag(n)
  }

  function SerializeAll(ns: seq<Node>): string
    decreases ns
  {
    if ns == [] then "" else SerializeAll(ns[..|ns| - 1]) + Serialize(ns[|ns| - 1])
  }

  lemma SerializeAllSnoc(ns: seq<Node>, n: Node)
    ensures SerializeAll(ns + [n]) == SerializeAll(ns) + Serialize(n)
  {
    assert (ns + [n])[..|ns|] == ns;
  }

  lemma {:induction false} SerializeAllCons(n: Node, ns: seq<Node>)
    ensures SerializeAll([n] + ns) == Serialize(n) + SerializeAll(ns)
    decreases |ns|
  {
    if ns == [] {
      assert [n] + ns == [n];
      SerializeAllOne(n);
    } else {
      var init, last := ns[..|ns| - 1], ns[|ns| - 1];
      assert [n] + ns == ([n] + init) + [last];
      assert ns == init + [last];
      SerializeAllSnoc([n] + init, last);
      SerializeAllSnoc(init, last);
      SerializeAllCons(n, init);
      Assoc(Serialize(n), SerializeAll(init), Serialize(last));
    }
  }

  lemma SerializeAllOne(n: Node)
    ensures SerializeAll([n]) == Serialize(n)
  {
    SerializeAllSnoc([], n);
    assert [] + [n] == [n];
  }

  lemma SerializePrefixStep(ns: seq<Node>, i: nat)
    requires i < |ns|
    ensures SerializeAll(ns[..i + 1]) == SerializeAll(ns[..i]) + Serialize(ns[i])
  {
    assert ns[..i + 1] == ns[..i] + [ns[i]];
    SerializeAllSnoc(ns[..i], ns[i]);
  }

  /** An element without children is its opening tag, its text and its closing tag. */
  lemma SerializeChildless(n: Node)
    requires n.children == []
    ensures Serialize(n) == OpenTag(n) + n.text + CloseTag(n)
  {
    var o := OpenTag(n) + n.text;
    assert o + "" == o;
  }

  /** An element with one class and nothing but children. */
  lemma SerializePlain(n: Node)
    requires |n.classes| == 1 && n.style == [] && n.attrs == [] && n.text == ""
    ensures Serialize(n) == "<" + n.tag + " class='" + n.classes[0] + "'>" + SerializeAll(n.children) + CloseTag(n)
  {
    assert Join(n.classes, " ") == n.classes[0];
    var h := "<" + n.tag + ClassAttr(n.classes);
    assert TagHead(n) == h;
    assert OpenTag(n) == h + ">";
    assert OpenTag(n) + "" == OpenTag(n);
  }

  /** The opening tag of an element with classes, no style and one attribute. */
  lemma OpenTagOneAttr(n: Node)
    requires |n.classes| >= 1 && n.style == [] && |n.attrs| == 1
    ensures OpenTag(n) == "<" + n.tag + " class='" + ClassName(n) + "' " + n.attrs[0].name + "='" + n.attrs[0].value + "'>"
  {
    assert n.attrs[..0] == [];
    assert AttrList(n.attrs) == AttrText(n.attrs[0]);
  }

  /** An element without text is its opening tag, its children and its closing tag. */
  lemma SerializeTextless(n: Node)
    requires n.text == ""
    ensures Serialize(n) == OpenTag(n) + SerializeAll(n.children) + CloseTag(n)
  {
    assert OpenTag(n) + "" == OpenTag(n);
  }

  lemma DeclarationsTwo(d0: Attr, d1: Attr)
    ensures Declarations([d0, d1]) == d0.name + ":" + d0.value + ";" + d1.name + ":" + d1.value
  {
    assert [d0, d1][..1] == [d0];
  }

  /**
   * Attribute values are written unescaped, so the text does not determine
   * the element: a value holding `' b='` reads back as an extra attribute.
   */
  lemma UnescapedValueAmbiguous(n: Node, name: string, a: string, b: string, c: string)
    ensures n.(attrs := [Attr(name, a + "' " + b + "='" + c)]) != n.(attrs := [Attr(name, a), Attr(b, c)])
    ensures Serialize(n.(attrs := [Attr(name, a + "' " + b + "='" + c)]))
         == Serialize(n.(attrs := [Attr(name, a), Attr(b, c)]))
  {
    var one, two := [Attr(name, a + "' " + b + "='" + c)], [Attr(name, a), Attr(b, c)];
    assert one[..0] == [] && two[..1] == [Attr(name, a)] && two[..1][..0] == [];
    QuoteSpace();
    SplitValue(" ", name, "='", a, "'", "' ", b, c);
    assert AttrList(one) == AttrList(two);
  }

  lemma QuoteSpace()
    ensures "' " == "'" + " "
  {
  }

  lemma SplitValue(sp: string, name: string, eq: string, a: string, q: string, qs: string, b: string, c: string)
    requires qs == q + sp
    ensures sp + name + eq + (a + qs + b + eq + c) + q == (sp + name + eq + a + q) + (sp + b + eq + c + q)
  {
  }

  // Solver steps. The lemmas from here to `SerializeCell` state no
  // property of the renderers: they only regroup `+` over symbolic pieces or
  // merge string literals, one step at a time, so that each proof that uses
  // them stays within the solver's budget.

  lemma Assoc(a: string, b: string, c: string)
    ensures a + b + c == a + (b + c)
  {
  }

  lemma AppendAssoc(h: string, a: string, x: string, b: string)
    ensures h + a + x + b == h + (a + x + b)
  {
  }

  lemma Glue4(h: string, a: string, b: string, c: string, d: string)
    ensures h + a + b + c + d == h + (a + b + c + d)
  {
  }

  lemma Glue5(h: string, a: string, b: string, c: string, d: string, e: string)
    ensures h + a + b + c + d + e == h + (a + b + c + d + e)
  {
  }

  lemma Glue8(h: string, a: string, b: string, c: string, d: string, e: string, f: string, g: string)
    ensures h + a + b + c + d + e + f + g == h + (a + b + c + d + e + f + g)
  {
  }

  lemma GlueRowHead(o: string, t: string, c: string, a: string, sp: string, b: string,
                    q: string, d: string, e: string, id: string, g: string)
    ensures o + t + c + (a + sp + b) + q + d + e + id + g == (o + t + c + a) + (sp + b) + (q + d + e) + id + g
    ensures o + t + c + a + q + d + e + id + g == (o + t + c + a) + (q + d + e) + id + g
  {
  }

  lemma GlueDeclarations(p1: string, c: string, r: string, px: string, sc: string, p2: string, c2: string,
                         rg: string, al: string, cp: string)
    ensures p1 + c + (r + px) + sc + p2 + c2 + ((rg + al) + cp) == (p1 + c) + r + (px + sc + p2 + c2 + rg) + al + cp
  {
  }

  lemma GlueAnimBox(x: string, b: string, r: string, m: string, al: string, id: string)
    ensures x + ((" style='" + ((((b + r) + m) + al) + ")")) + "'") + ((" data-id='" + id) + "'") + ">" + "</div>"
         == (x + " style='" + b) + r + m + al + ")' data-id='" + id + "'></div>"
  {
  }

  lemma GlueShell(h: string, b: string, r: string, c: string, d: string)
    ensures h + (b + r + c) + d == (h + b) + r + (c + d)
  {
  }

  // The literal text of the tags the renderers write, one merge at a time.

  lemma MainEmptyText()
    ensures "<div class='Main'>" + "" + "</div>" == "<div class='Main'></div>"
  {
  }

  lemma CellHeadText()
    ensures "<" + "td" + " class='" + "TableCell" == "<td class='TableCell"
    ensures "<td class='TableCell" + "' " + "data-text" + "='" == "<td class='TableCell' data-text='"
  {
    CellHeadStart();
    CellHeadEnd();
  }

  lemma CellHeadStart()
    ensures "<" + "td" + " class='" + "TableCell" == "<td class='TableCell"
  {
  }

  lemma CellHeadEnd()
    ensures "<td class='TableCell" + "' " + "data-text" + "='" == "<td class='TableCell' data-text='"
  {
  }

  lemma RowHeadText()
    ensures "<" + "tr" + " class='" + "TableRow" == "<tr class='TableRow"
  {
  }

  lemma DataIdText()
    ensures "' " + "data-id" + "='" == "' data-id='"
    ensures " " + "data-id" + "='" == " data-id='"
  {
  }

  lemma ActiveText()
    ensures " " + "active" == " active"
  {
  }

  lemma BoxHeadText()
    ensures "<" + "div" + " class='" + "AnimBox" + "'" == "<div class='AnimBox'"
  {
  }

  lemma BoxStyleText()
    ensures "<div class='AnimBox'" + " style='" + "border-radius:" == "<div class='AnimBox' style='border-radius:"
  {
  }

  lemma BoxDeclarationsText()
    ensures "border-radius" + ":" == "border-radius:"
    ensures "px" + ";" + "background" + ":" + "rgba(0,0,0," == "px;background:rgba(0,0,0,"
  {
  }

  lemma MainHeadText()
    ensures "<" + "div" + " class='" + "Main" + "'>" == "<div class='Main'>"
  {
  }

  lemma AnimHeadText()
    ensures "<" + "div" + " class='" + "Anim" + "'>" == "<div class='Anim'>"
  {
  }

  lemma TreeHeadText()
    ensures "<" + "div" + " class='" + "Tree" + "'>" == "<div class='Tree'>"
  {
  }

  lemma TreeNodeHeadText()
    ensures "<" + "ul" + " class='" + "TreeNode" + "'>" == "<ul class='TreeNode'>"
  {
  }

  lemma TreeLeafHeadText()
    ensures "<" + "li" + " class='" + "TreeLeaf" + "'>" == "<li class='TreeLeaf'>"
  {
  }

  lemma TableHeadText()
    ensures "<" + "table" + " class='" + "Table" + "'>" == "<table class='Table'>"
  {
  }

  lemma TableBodyText()
    ensures "<table class='Table'>" + "<tbody>" == "<table class='Table'><tbody>"
    ensures "</tbody>" + "</table>" == "</tbody></table>"
  {
  }

  // What each view serializes to, in the pieces its renderer writes.

  /** `render_table_cell` writes the cell's text twice: as `data-text` and as its content. */
  lemma SerializeCell(s: string)
    ensures Serialize(CellView(s)) == "<td class='TableCell' data-text='" + s + "'>" + s + "</td>"
  {
    var n := CellView(s);
    assert ClassName(n) == "TableCell";
    OpenTagOneAttr(n);
    CellHeadText();
    SerializeChildless(n);
    assert CloseTag(n) == "</td>";
  }

  /** The opening tag `render_table_row` writes. */
  lemma OpenTagRow(item: TableItemState)
    ensures item.active ==>
              OpenTag(RowView(item)) == "<tr class='TableRow" + " active" + "' data-id='" + ToDecimal(item.id) + "'>"
    ensures !item.active ==>
              OpenTag(RowView(item)) == "<tr class='TableRow" + "' data-id='" + ToDecimal(item.id) + "'>"
  {
    var n := RowView(item);
    var id := ToDecimal(item.id);
    OpenTagOneAttr(n);
    RowHeadText();
    DataIdText();
    if item.active {
      assert n.classes == ["TableRow", "active"];
      JoinTwo("TableRow", "active", " ");
      GlueRowHead("<", "tr", " class='", "TableRow", " ", "active", "' ", "data-id", "='", id, "'>");
      ActiveText();
    } else {
      assert ClassName(n) == "TableRow";
      GlueRowHead("<", "tr", " class='", "TableRow", " ", "active", "' ", "data-id", "='", id, "'>");
    }
  }

  lemma SerializeRowCells(item: TableItemState)
    ensures Serialize(RowView(item))
         == OpenTag(RowView(item)) + Serialize(CellView("#" + ToDecimal(item.id))) + SerializeAll(CellViews(item.props)) + "</tr>"
  {
    var n := RowView(item);
    SerializeTextless(n);
    SerializeAllCons(CellView("#" + ToDecimal(item.id)), CellViews(item.props));
    assert CloseTag(n) == "</tr>";
  }

  lemma SerializeTable(t: TableState)
    ensures Serialize(TableView(t)) == "<table class='Table'><tbody>" + SerializeAll(RowViews(t.items)) + "</tbody></table>"
  {
    var body := Node("tbody", [], [], [], "", RowViews(t.items));
    var rows := SerializeAll(RowViews(t.items));
    assert OpenTag(body) == "<tbody>";
    SerializeTextless(body);
    assert CloseTag(body) == "</tbody>";
    SerializeAllOne(body);
    SerializePlain(TableView(t));
    assert CloseTag(TableView(t)) == "</table>";
    GlueShell("<" + "table" + " class='" + "Table" + "'>", "<tbody>", rows, "</tbody>", "</table>");
    TableHeadText();
    TableBodyText();
  }

  lemma SerializeAnimBox(fmt: AnimText, b: AnimBoxState)
    ensures Serialize(AnimBoxView(fmt, b))
         == "<div class='AnimBox' style='border-radius:" + fmt.radius(b.time) + "px;background:rgba(0,0,0,"
            + fmt.alpha(b.time) + ")' data-id='" + ToDecimal(b.id) + "'></div>"
  {
    var n := AnimBoxView(fmt, b);
    var r, al, id := fmt.radius(b.time), fmt.alpha(b.time), ToDecimal(b.id);
    DeclarationsTwo(n.style[0], n.style[1]);
    GlueDeclarations("border-radius", ":", r, "px", ";", "background", ":", "rgba(0,0,0,", al, ")");
    BoxDeclarationsText();
    var d := "border-radius:" + r + "px;background:rgba(0,0,0," + al + ")";
    assert Declarations(n.style) == d;
    assert ClassName(n) == "AnimBox";
    var x := "<" + "div" + " class='" + "AnimBox" + "'";
    assert TagHead(n) == x + (" style='" + d + "'");
    assert n.attrs[..0] == [];
    DataIdText();
    assert AttrList(n.attrs) == " data-id='" + id + "'";
    SerializeChildless(n);
    assert Serialize(n) == x + (" style='" + d + "'") + (" data-id='" + id + "'") + ">" + "" + "</div>";
    assert x + (" style='" + d + "'") + (" data-id='" + id + "'") + ">" + "" == x + (" style='" + d + "'") + (" data-id='" + id + "'") + ">";
    GlueAnimBox(x, "border-radius:", r, "px;background:rgba(0,0,0,", al, id);
    BoxHeadText();
    BoxStyleText();
  }

  lemma SerializeTreeLeaf(t: TreeNodeState)
    ensures Serialize(TreeLeafView(t)) == "<li class='TreeLeaf'>" + ToDecimal(t.id) + "</li>"
  {
    var n := TreeLeafView(t);
    SerializeChildless(n);
    assert ClassName(n) == "TreeLeaf";
    assert OpenTag(n) == "<" + "li" + " class='" + "TreeLeaf" + "'" + "" + ">";
    assert "<" + "li" + " class='" + "TreeLeaf" + "'" + "" + ">" == "<" + "li" + " class='" + "TreeLeaf" + "'>";
    TreeLeafHeadText();
    assert CloseTag(n) == "</li>";
  }

  lemma SerializeAnim(fmt: AnimText, a: AnimState)
    ensures Serialize(AnimView(fmt, a)) == "<div class='Anim'>" + SerializeAll(AnimBoxViews(fmt, a.items)) + "</div>"
  {
    SerializePlain(AnimView(fmt, a));
    AnimHeadText();
    assert CloseTag(AnimView(fmt, a)) == "</div>";
  }

  lemma SerializeTreeNode(t: TreeNodeState)
    ensures Serialize(TreeNodeView(t)) == "<ul class='TreeNode'>" + SerializeAll(TreeNodeView(t).children) + "</ul>"
  {
    SerializePlain(TreeNodeView(t));
    TreeNodeHeadText();
    assert CloseTag(TreeNodeView(t)) == "</ul>";
  }

  lemma SerializeTree(t: TreeState)
    ensures Serialize(TreeView(t)) == "<div class='Tree'>" + Serialize(TreeNodeView(t.root)) + "</div>"
  {
    SerializePlain(TreeView(t));
    SerializeAllOne(TreeNodeView(t.root));
    TreeHeadText();
    assert CloseTag(TreeView(t)) == "</div>";
  }

  lemma SerializeMain(fmt: AnimText, s: AppState)
    ensures Serialize(MainView(fmt, s)) == "<div class='Main'>" + SerializeAll(MainView(fmt, s).children) + "</div>"
  {
    SerializePlain(MainView(fmt, s));
    MainHeadText();
    assert CloseTag(MainView(fmt, s)) == "</div>";
  }

  /** A location the benchmark does not know renders an empty `Main`. */
  lemma SerializeMainOther(fmt: AnimText, s: AppState)
    requires s.location !in {"table", "anim", "tree"}
    ensures Serialize(MainView(fmt, s)) == "<div class='Main'></div>"
  {
    SerializeMain(fmt, s);
    assert MainView(fmt, s).children == [];
    MainEmptyText();
  }

  /**
   * The long-lived `inner_html` buffer of the markup backend and the
   * `innerHTML` of the `#App` container it is handed to. Every `Render*`
   * appends to `html` and touches nothing else.
   */
  class Renderer {
    var html: string
    var container: string

    constructor()
      ensures html == "" && container == ""
    {
      html := "";
      container := "";
    }

    method RenderTableCell(props: string)
      modifies this`html
      ensures html == old(html) + Serialize(CellView(props))
    {
      html := html + "<td class='TableCell' data-text='";
      html := html + props;
      html := html + "'>";
      html := html + props;
      html := html + "</td>";
      SerializeCell(props);
    }

    method RenderTableRow(data: TableItemState)
      modifies this`html
      ensures html == old(html) + Serialize(RowView(data))
    {
      ghost var start := html;
      ghost var n := RowView(data);
      html := html + "<tr class='TableRow";
      if data.active {
        html := html + " active";
      }
      html := html + "' data-id='";
      var id := ToDecimal(data.id);
      html := html + id;
      html := html + "'>";
      OpenTagRow(data);
      if data.active {
        Glue5(start, "<tr class='TableRow", " active", "' data-id='", id, "'>");
      } else {
        Glue4(start, "<tr class='TableRow", "' data-id='", id, "'>");
      }
      ghost var head := html;
      var poundId := "#" + id;
      RenderTableCell(poundId);
      ghost var first := html;
      var cells := CellViews(data.props);
      for i := 0 to |data.props|
        invariant html == first + SerializeAll(cells[..i])
      {
        RenderTableCell(data.props[i]);
        SerializePrefixStep(cells, i);
        Assoc(first, SerializeAll(cells[..i]), Serialize(cells[i]));
      }
      assert cells[..|data.props|] == cells;
      html := html + "</tr>";
      SerializeRowCells(data);
      Glue4(start, OpenTag(n), Serialize(CellView(poundId)), SerializeAll(cells), "</tr>");
    }

    method RenderTable(data: TableState)
      modifies this`html
      ensures html == old(html) + Serialize(TableView(data))
    {
      ghost var start := html;
      var rows := RowViews(data.items);
      html := html + "<table class='Table'><tbody>";
      ghost var head := html;
      for i := 0 to |data.items|
        invariant html == head + SerializeAll(rows[..i])
      {
        RenderTableRow(data.items[i]);
        SerializePrefixStep(rows, i);
        Assoc(head, SerializeAll(rows[..i]), Serialize(rows[i]));
      }
      assert rows[..|data.items|] == rows;
      html := html + "</tbody></table>";
      SerializeTable(data);
      AppendAssoc(start, "<table class='Table'><tbody>", SerializeAll(rows), "</tbody></table>");
    }

    method RenderAnimBox(fmt: AnimText, props: AnimBoxState)
      modifies this`html
      ensures html == old(html) + Serialize(AnimBoxView(fmt, props))
    {
      ghost var start := html;
      html := html + "<div class='AnimBox' style='border-radius:";
      var borderRadius := fmt.radius(props.time);
      html := html + borderRadius;
      html := html + "px;background:rgba(0,0,0,";
      var alpha := fmt.alpha(props.time);
      html := html + alpha;
      html := html + ")' data-id='";
      var id := ToDecimal(props.id);
      html := html + id;
      html := html + "'></div>";
      SerializeAnimBox(fmt, props);
      Glue8(start, "<div class='AnimBox' style='border-radius:", borderRadius, "px;background:rgba(0,0,0,",
            alpha, ")' data-id='", id, "'></div>");
    }

    method RenderAnim(fmt: AnimText, props: AnimState)
      modifies this`html
      ensures html == old(html) + Serialize(AnimView(fmt, props))
    {
      ghost var start := html;
      var boxes := AnimBoxViews(fmt, props.items);
      html := html + "<div class='Anim'>";
      ghost var head := html;
      for i := 0 to |props.items|
        invariant html == head + SerializeAll(boxes[..i])
      {
        RenderAnimBox(fmt, props.items[i]);
        SerializePrefixStep(boxes, i);
        Assoc(head, SerializeAll(boxes[..i]), Serialize(boxes[i]));
      }
      assert boxes[..|props.items|] == boxes;
      html := html + "</div>";
      SerializeAnim(fmt, props);
      AppendAssoc(start, "<div class='Anim'>", SerializeAll(boxes), "</div>");
    }

    method RenderTreeLeaf(props: TreeNodeState)
      modifies this`html
      ensures html == old(html) + Serialize(TreeLeafView(props))
    {
      ghost var start := html;
      html := html + "<li class='TreeLeaf'>";
      var id := ToDecimal(props.id);
      html := html + id;
      html := html + "</li>";
      SerializeTreeLeaf(props);
      Glue4(start, "<li class='TreeLeaf'>", id, "</li>", "");
    }

    method RenderTreeNode(props: TreeNodeState)
      modifies this`html
      ensures html == old(html) + Serialize(TreeNodeView(props))
      decreases props
    {
      ghost var start := html;
      ghost var kids := TreeNodeView(props).children;
      html := html + "<ul class='TreeNode'>";
      ghost var head := html;
      if props.children.Present? {
        var children := props.children.nodes;
        for i := 0 to |children|
          invariant html == head + SerializeAll(kids[..i])
        {
          var child := children[i];
          if child.container {
            RenderTreeNode(child);
          } else {
            RenderTreeLeaf(child);
          }
          assert kids[i] == TreeChildView(child);
          SerializePrefixStep(kids, i);
          Assoc(head, SerializeAll(kids[..i]), Serialize(kids[i]));
        }
        assert kids[..|children|] == kids;
      } else {
        assert head + SerializeAll(kids) == head;
      }
      html := html + "</ul>";
      SerializeTreeNode(props);
      AppendAssoc(start, "<ul class='TreeNode'>", SerializeAll(kids), "</ul>");
    }

    method RenderTree(props: TreeState)
      modifies this`html
      ensures html == old(html) + Serialize(TreeView(props))
    {
      ghost var start := html;
      html := html + "<div class='Tree'>";
      RenderTreeNode(props.root);
      html := html + "</div>";
      SerializeTree(props);
      AppendAssoc(start, "<div class='Tree'>", Serialize(TreeNodeView(props.root)), "</div>");
    }

    method RenderMain(fmt: AnimText, data: AppState)
      modifies this`html
      ensures html == old(html) + Serialize(MainView(fmt, data))
    {
      ghost var start := html;
      ghost var kids := MainView(fmt, data).children;
      html := html + "<div class='Main'>";
      ghost var head := html;
      match data.location {
        case "table" =>
          RenderTable(data.table);
          SerializeAllOne(TableView(data.table));
        case "anim" =>
          RenderAnim(fmt, data.anim);
          SerializeAllOne(AnimView(fmt, data.anim));
        case "tree" =>
          RenderTree(data.tree);
          SerializeAllOne(TreeView(data.tree));
        case _ =>
          assert head + SerializeAll(kids) == head;
      }
      html := html + "</div>";
      SerializeMain(fmt, data);
      AppendAssoc(start, "<div class='Main'>", SerializeAll(kids), "</div>");
    }

    /**
     * One frame of the benchmark: clear the reused buffer, render the state
     * into it and hand it to the container. What earlier frames wrote is gone.
     */
    method Update(fmt: AnimText, state: AppState)
      modifies this
      ensures container == html == Serialize(MainView(fmt, state))
    {
      html := "";
      RenderMain(fmt, state);
      container := html;
    }
  }
}
