/**
 * The rendering rules both backends follow, written once as the element
 * tree each state produces. The markup backend writes `Serialize` of these
 * trees; the template-clone backend builds them.
 */
module View {
  import opened Wrappers
  import opened Decimal
  import opened UiState
  import opened Dom

  /** Text of a formatted number: it never contains a parenthesis. */
  type Numeral = s: string | '(' !in s && ')' !in s

  /**
   * Text of the two floats an anim box shows, as functions of its `time`:
   * `radius` is `(time % 10.0).to_string()` and `alpha` is
   * `(time % 10.0 / 10.0 + 0.5).to_string()`, both f32 operations.
   */
  datatype AnimText = AnimText(radius: F32 -> Numeral, alpha: F32 -> Numeral)

  function CellView(text: string): Node {
    Node("td", ["TableCell"], [], [Attr("data-text", text)], text, [])
  }

  function CellViews(props: seq<string>): seq<Node> {
    seq(|props|, i requires 0 <= i < |props| => CellView(props[i]))
  }

  function RowView(item: TableItemState): Node {
    var id := ToDecimal(item.id);
    Node("tr", ["TableRow"] + (if item.active then ["active"] else []), [],
         [Attr("data-id", id)], "", [CellView("#" + id)] + CellViews(item.props))
  }

  function RowViews(items: seq<TableItemState>): seq<Node> {
    seq(|items|, i requires 0 <= i < |items| => RowView(items[i]))
  }

  function TableView(t: TableState): Node {
    Node("table", ["Table"], [], [], "", [Node("tbody", [], [], [], "", RowViews(t.items))])
  }

  /** The inline style the markup writes: `border-radius:Rpx;background:rgba(0,0,0,A)`. */
  function BoxStyle(fmt: AnimText, time: F32): seq<Attr> {
    [Attr("border-radius", fmt.radius(time) + "px"),
     Attr("background", "rgba(0,0,0," + fmt.alpha(time) + ")")]
  }

  function AnimBoxView(fmt: AnimText, b: AnimBoxState): Node {
    Node("div", ["AnimBox"], BoxStyle(fmt, b.time), [Attr("data-id", ToDecimal(b.id))], "", [])
  }

  function AnimBoxViews(fmt: AnimText, items: seq<AnimBoxState>): seq<Node> {
    seq(|items|, i requires 0 <= i < |items| => AnimBoxView(fmt, items[i]))
  }

  function AnimView(fmt: AnimText, a: AnimState): Node {
    Node("div", ["Anim"], [], [], "", AnimBoxViews(fmt, a.items))
  }

  function TreeLeafView(t: TreeNodeState): Node {
    Node("li", ["TreeLeaf"], [], [], ToDecimal(t.id), [])
  }

  /** A child of a tree node: a nested node when it is a container, a leaf otherwise. */
  function TreeChildView(c: TreeNodeState): Node
    decreases c, 1
  {
    if c.container then TreeNodeView(c) else TreeLeafView(c)
  }

  function TreeChildViews(cs: seq<TreeNodeState>): seq<Node> {
    seq(|cs|, i requires 0 <= i < |cs| => TreeChildView(cs[i]))
  }

  /** A `TreeNode` list, whatever the node's own `container` flag says. */
  function TreeNodeView(t: TreeNodeState): Node
    decreases t, 0
  {
    Node("ul", ["TreeNode"], [], [], "",
         match t.children
         case Absent => []
         case Present(cs) => seq(|cs|, i requires 0 <= i < |cs| => TreeChildView(cs[i])))
  }

  function TreeView(t: TreeState): Node {
    Node("div", ["Tree"], [], [], "", [TreeNodeView(t.root)])
  }

  function MainView(fmt: AnimText, s: AppState): Node {
    Node("div", ["Main"], [], [], "",
         match s.location
         case "table" => [TableView(s.table)]
         case "anim" => [AnimView(fmt, s.anim)]
         case "tree" => [TreeView(s.tree)]
         case _ => [])
  }

  // What the rendering rules promise about the trees they build.

  /** A cell shows its text and carries the same text as `data-text`. */
  lemma CellShape(text: string)
    ensures ClassName(CellView(text)) == "TableCell"
    ensures GetAttribute(CellView(text), "data-text") == Some(CellView(text).text)
    ensures CellView(text).text == text && CellView(text).children == []
  {
    assert CellView(text).classes == ["TableCell"];
  }

  /**
   * A row is `TableRow`, `active` exactly when the item is, its `data-id` is
   * the decimal id, and it has a `#id` cell followed by one cell per prop.
   */
  lemma RowShape(item: TableItemState)
    ensures RowView(item).tag == "tr" && RowView(item).classes[0] == "TableRow"
    ensures "active" in RowView(item).classes <==> item.active
    ensures GetAttribute(RowView(item), "data-id") == Some(ToDecimal(item.id))
    ensures |RowView(item).children| == 1 + |item.props|
    ensures RowView(item).children[0] == CellView("#" + ToDecimal(item.id))
    ensures forall i :: 0 <= i < |item.props| ==> RowView(item).children[i + 1] == CellView(item.props[i])
  {
    var r := RowView(item);
    if "active" in r.classes {
      var k :| 0 <= k < |r.classes| && r.classes[k] == "active";
      assert k != 0;
    }
  }

  /** The rows sit inside the table's one `tbody`, one per item, in order. */
  lemma TableShape(t: TableState)
    ensures ClassName(TableView(t)) == "Table" && |TableView(t).children| == 1
    ensures TableView(t).children[0].tag == "tbody"
    ensures |TableView(t).children[0].children| == |t.items|
    ensures forall i :: 0 <= i < |t.items| ==> TableView(t).children[0].children[i] == RowView(t.items[i])
  {
    assert TableView(t).classes == ["Table"];
  }

  /** One box per item, in order, each identified by its `data-id`. */
  lemma AnimShape(fmt: AnimText, a: AnimState)
    ensures ClassName(AnimView(fmt, a)) == "Anim" && |AnimView(fmt, a).children| == |a.items|
    ensures forall i :: 0 <= i < |a.items| ==>
              AnimView(fmt, a).children[i].classes == ["AnimBox"] &&
              GetAttribute(AnimView(fmt, a).children[i], "data-id") == Some(ToDecimal(a.items[i].id))
  {
    assert AnimView(fmt, a).classes == ["Anim"];
  }

  /** A leaf shows its id and nothing else: its own children are never looked at. */
  lemma TreeLeafIgnoresChildren(t: TreeNodeState, cs: Children)
    ensures TreeLeafView(t.(children := cs)) == TreeLeafView(t)
    ensures TreeLeafView(t).text == ToDecimal(t.id) && TreeLeafView(t).children == []
  {
  }

  /** A node without a children list renders an empty `TreeNode`. */
  lemma TreeNodeAbsent(t: TreeNodeState)
    requires t.children.Absent?
    ensures TreeNodeView(t).children == []
  {
  }

  /**
   * A node's flag does not matter to its own rendering: only its children's do.
   * So the root is a `TreeNode` whatever its `container` flag.
   */
  lemma TreeRootShape(t: TreeState, flag: bool)
    ensures TreeView(t).children == [TreeNodeView(t.root)]
    ensures TreeNodeView(t.root.(container := flag)) == TreeNodeView(t.root)
    ensures ClassName(TreeNodeView(t.root)) == "TreeNode"
  {
    assert TreeNodeView(t.root).classes == ["TreeNode"];
  }

  /** Container children become nested nodes, the others leaves, in order. */
  lemma TreeChildrenShape(t: TreeNodeState)
    requires t.children.Present?
    ensures |TreeNodeView(t).children| == |t.children.nodes|
    ensures forall i :: 0 <= i < |t.children.nodes| ==>
              (t.children.nodes[i].container ==> TreeNodeView(t).children[i] == TreeNodeView(t.children.nodes[i])) &&
              (!t.children.nodes[i].container ==> TreeNodeView(t).children[i] == TreeLeafView(t.children.nodes[i]))
  {
  }

  /** `Main` has one child for "table", "anim" and "tree", and none otherwise. */
  lemma MainShape(fmt: AnimText, s: AppState)
    ensures ClassName(MainView(fmt, s)) == "Main"
    ensures s.location == "table" ==> MainView(fmt, s).children == [TableView(s.table)]
    ensures s.location == "anim" ==> MainView(fmt, s).children == [AnimView(fmt, s.anim)]
    ensures s.location == "tree" ==> MainView(fmt, s).children == [TreeView(s.tree)]
    ensures s.location !in {"table", "anim", "tree"} ==> MainView(fmt, s) == Element("div", ["Main"])
  {
    assert MainView(fmt, s).classes == ["Main"];
  }
}
