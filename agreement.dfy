/**
 * The two backends agree: for every state, the markup backend's string is
 * the serialization of the element the template-clone backend builds, once
 * the style values are read as CSS reads them.
 */
module Agreement {
  import opened UiState
  import opened Dom
  import opened Css
  import opened View
  import Markup
  import Clone

  /**
   * One frame rendered by both backends, each from a fresh start: a fresh
   * buffer for the markup and an empty template cache for the clone.
   */
  method RenderBoth(fmt: AnimText, state: AppState) returns (markup: string, dom: Node)
    ensures markup == Markup.Serialize(CloseStyles(dom))
    ensures markup == Markup.Serialize(MainView(fmt, state))
    ensures CloseStyles(dom) == MainView(fmt, state)
  {
    var renderer := new Markup.Renderer();
    renderer.Update(fmt, state);
    markup := renderer.container;
    var ctx := new Clone.Context();
    dom := Clone.RenderMain(ctx, fmt, state);
  }

  /**
   * The clone's background is not the markup's text: it lacks the closing
   * parenthesis, which CSS restores when it reads the value.
   */
  lemma BackgroundNeedsClosing(alpha: Numeral)
    ensures "rgba(0,0,0," + alpha != "rgba(0,0,0," + alpha + ")"
    ensures CloseValue("rgba(0,0,0," + alpha) == "rgba(0,0,0," + alpha + ")"
  {
    assert |"rgba(0,0,0," + alpha| < |"rgba(0,0,0," + alpha + ")"|;
    CloseOneOpen("rgba", "0,0,0," + alpha);
    assert "rgba" + "(" + ("0,0,0," + alpha) == "rgba(0,0,0," + alpha;
  }

  /** Away from the anim workload no style is set, so the clone's tree is the view itself. */
  method RenderTableBoth(table: TableState) returns (markup: string, dom: Node)
    ensures dom == TableView(table) && markup == Markup.Serialize(dom)
  {
    var renderer := new Markup.Renderer();
    renderer.RenderTable(table);
    markup := renderer.html;
    var ctx := new Clone.Context();
    dom := Clone.RenderTable(ctx, table);
  }

  method RenderTreeBoth(tree: TreeState) returns (markup: string, dom: Node)
    ensures dom == TreeView(tree) && markup == Markup.Serialize(dom)
  {
    var renderer := new Markup.Renderer();
    renderer.RenderTree(tree);
    markup := renderer.html;
    var ctx := new Clone.Context();
    dom := Clone.RenderTree(ctx, tree);
  }
}
