/**
 * `handle_click`, shared by both backends: a click on an element whose
 * class name is exactly `TableCell` reports the element's `data-text`
 * and stops the event; any other click passes through. Logging and event
 * suppression are reduced to the value this returns.
 */
module Events {
  import opened Wrappers
  import opened UiState
  import opened Dom
  import opened View

  datatype Click =
    | PassThrough
    | Report(text: string)  // console "Click" with the text; default prevented, propagation stopped

  /** `None` is the panic of `get_attribute("data-text").unwrap()` on a cell without one. */
  function HandleClick(target: Node): Option<Click> {
    if ClassName(target) == "TableCell" then
      match GetAttribute(target, "data-text")
      case Some(text) => Some(Report(text))
      case None => None
    else Some(PassThrough)
  }

  /** A click on any cell the table renders reports the text the cell shows. */
  lemma ClickOnCell(text: string)
    ensures HandleClick(CellView(text)) == Some(Report(CellView(text).text))
  {
    CellShape(text);
  }

  /** Rows are never mistaken for cells, whether active or not. */
  lemma ClickOnRow(item: TableItemState)
    ensures HandleClick(RowView(item)) == Some(PassThrough)
  {
    var r := RowView(item);
    if item.active {
      assert r.classes == ["TableRow", "active"];
      JoinTwo("TableRow", "active", " ");
    } else {
      assert ClassName(r) == "TableRow";
    }
  }

  /** The class name must match exactly: a cell with a further class passes through. */
  lemma ClickNeedsExactClass(text: string, c: string)
    requires IsToken(c) && c != "TableCell"
    ensures HandleClick(AddClass(CellView(text), c)) == Some(PassThrough)
  {
    var n := AddClass(CellView(text), c);
    assert n.classes == ["TableCell", c];
    JoinTwo("TableCell", c, " ");
  }

  /** An element that claims to be a cell but lacks `data-text` makes the handler panic. */
  lemma ClickOnBareCell()
    ensures HandleClick(Element("td", ["TableCell"])) == None
  {
  }
}
