/**
 * The application state the uibench harness hands to `update` once per
 * iteration. Exactly one of the three payloads is rendered, chosen by
 * `location`; the other two are present and ignored.
 */
module UiState {

  /** Rust's `u32`. */
  type U32 = n: nat | n < 0x1_0000_0000

  /** The bit pattern of a Rust `f32`; no float arithmetic is modelled on it. */
  type F32 = bv32

  datatype TableItemState = TableItemState(id: U32, active: bool, props: seq<string>)

  datatype TableState = TableState(items: seq<TableItemState>)

  datatype AnimBoxState = AnimBoxState(id: U32, time: F32)

  datatype AnimState = AnimState(items: seq<AnimBoxState>)

  /** `children: Option<Vec<TreeNodeState>>`: absent or a (possibly empty) list. */
  datatype Children = Absent | Present(nodes: seq<TreeNodeState>)

  datatype TreeNodeState = TreeNodeState(id: U32, container: bool, children: Children)

  datatype TreeState = TreeState(root: TreeNodeState)

  datatype AppState = AppState(location: string, table: TableState, anim: AnimState, tree: TreeState)
}
