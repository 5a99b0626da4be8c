# uibench renderers in Dafny

The uibench benchmark hands an application a state on every frame. The state
names a location ("table", "anim" or "tree") and holds one state tree for each
workload. The application must put the matching view in the page. The
repository has two Rust/wasm-bindgen backends for the same rendering rules:

- the **markup renderer** (`lib.rs`) pushes HTML text onto a reused `String`
  buffer, then hands the buffer to the container's `innerHTML`;
- the **template-clone renderer** (`uibench_wasm_bindgen_clone/src/lib.rs`)
  keeps a `Context` with a cache of compiled templates, keyed by nine fixed
  snippets. Each render copies a template and edits the copy: it adds a
  class, sets attributes, style properties and text, and appends children.

This project models both. Each is proved against one abstract view of the
state (module `View`), and the two are proved to agree with each other: the
clone backend's tree is the view, and the markup backend's text is that view's
serialization. The agreement is about the written text, not the tree a
browser parses back from it. Since neither backend escapes anything, the two
can differ for props that hold quotes, `<` or `&` (see "## Left out").

Modules:

- `UiState` holds the deserialised state structs. `u32` is a bounded `nat`.
  `f32` is its 32-bit pattern, since no arithmetic is done on it here.
- `Dom` is an element as a value. It has a tag, a class list, style
  declarations, attributes in insertion order, text and children. A clone is
  a copy of that value. The module also has the DOM calls the clone backend
  makes: `set_attribute`, `class_list().add_1`, `style.set_property`,
  `set_text_content` and `append_child`.
- `Decimal` is `u32::to_string` as decimal digits. `ToDecimal` and
  `ParseDecimal` are proved to round-trip.
- `View` is the view each workload should produce (cells, rows, table, anim
  boxes, tree nodes and leaves, main), with lemmas stating the shape of each.
- `Markup` serializes a `Node` into the exact text the markup backend writes.
  Its `Renderer` class holds the `html` buffer and the `container`. Each of its
  methods makes the same `push_str` calls as the source, and each is proved to
  append exactly `Serialize` of the view.
- `Css` describes how the browser reads a style value. A CSS function still
  open at the end of the value is closed.
- `Clone` has the nine snippets and the template compiler (`Compile`). Its
  `Context` class holds the `templates` map. It also has one method per
  renderer, proved to build the view, and an `App` class for the `update`
  closure.
- `Events` is `handle_click` as a function of the clicked element.
- `Agreement` renders one frame with both backends. The markup string is the
  serialization of the clone's tree.

The anim box's background differs between the backends. The markup writes
`rgba(0,0,0,<alpha>)`, but the clone sets `rgba(0,0,0,<alpha>` with no closing
parenthesis (uibench_wasm_bindgen_clone/src/lib.rs:108-110). The model keeps
that value as written. The two trees are equal only once `Css.CloseStyles`
reads style values as CSS Syntax Level 3 does, where the end of input closes
an open function. `Agreement.BackgroundNeedsClosing` shows that the two texts
differ and that closing makes them equal.

The float arithmetic and its formatting (`time % 10.0`, `/ 10.0 + 0.5`,
`to_string`) are a parameter of every anim renderer. It is the record
`View.AnimText`, with two functions from the `f32` bit pattern to a numeral
that contains no parentheses.

## Model

| member | source | states |
|---|---|---|
| Markup.Renderer.RenderTableCell | lib.rs:62-68 | appends exactly `<td class='TableCell' data-text='` + s + `'>` + s + `</td>`; the old buffer stays an unchanged prefix |
| Markup.SerializeCell | lib.rs:62-68 | a cell serializes to `<td class='TableCell' data-text='s'>s</td>`, so its data-text is its visible text |
| Markup.Renderer.RenderTableRow | lib.rs:70-89 | appends the serialization of the row view: class `TableRow`, ` active` only for active items, decimal `data-id`, the `#id` cell, one cell per prop, `</tr>` |
| Markup.OpenTagRow | lib.rs:71-79 | the row's opening tag is `<tr class='TableRow` + (` active` iff active) + `' data-id='` + id + `'>` |
| Markup.SerializeRowCells | lib.rs:70-89 | the row serializes as its opening tag, then the `#id` cell, then the prop cells in order, then `</tr>` |
| Markup.Renderer.RenderTable | lib.rs:91-97 | appends the serialization of the table view: one row per item, in order |
| Markup.SerializeTable | lib.rs:91-97 | the rows in item order sit between `<table class='Table'><tbody>` and `</tbody></table>` |
| Markup.Renderer.RenderAnimBox | lib.rs:99-109 | appends the box's serialization: radius, alpha inside `rgba(0,0,0,…)`, decimal `data-id` |
| Markup.SerializeAnimBox | lib.rs:99-109 | a box serializes to `<div class='AnimBox' style='border-radius:Rpx;background:rgba(0,0,0,A)' data-id='id'></div>` |
| Markup.Renderer.RenderAnim | lib.rs:111-117 | appends one box per item, in order, inside `<div class='Anim'>`…`</div>` |
| Markup.SerializeAnim | lib.rs:111-117 | the anim serializes as `<div class='Anim'>`, the boxes in order, `</div>` |
| Markup.Renderer.RenderTreeLeaf | lib.rs:119-123 | appends `<li class='TreeLeaf'>` + decimal id + `</li>` |
| Markup.SerializeTreeLeaf | lib.rs:119-123 | a leaf serializes to `<li class='TreeLeaf'>id</li>` whatever its children |
| Markup.Renderer.RenderTreeNode | lib.rs:125-137 | appends the node view: container children recurse, the others are leaves; an absent child list gives an empty `<ul>` |
| Markup.SerializeTreeNode | lib.rs:125-137 | a node serializes as `<ul class='TreeNode'>`, its children in order, `</ul>` |
| Markup.Renderer.RenderTree | lib.rs:139-143 | appends `<div class='Tree'>`, the root as a TreeNode whatever its flag, `</div>` |
| Markup.SerializeTree | lib.rs:139-143 | the tree serializes as `<div class='Tree'>` + the root node + `</div>` |
| Markup.Renderer.RenderMain | lib.rs:145-154 | appends the main view, wrapped in `<div class='Main'>`…`</div>` |
| Markup.SerializeMain | lib.rs:145-154 | main serializes as `<div class='Main'>`, the chosen workload, `</div>` |
| Markup.SerializeMainOther | lib.rs:145-154 | any location other than table/anim/tree gives exactly `<div class='Main'></div>` |
| Markup.Renderer.Update | lib.rs:174-179 | the buffer is cleared first, so the text handed to the container is exactly the main view's serialization, whatever earlier frames left |
| View.CellShape | lib.rs:62-68 | a cell has class name `TableCell`, no children, and data-text equal to its text |
| View.RowShape | uibench_wasm_bindgen_clone/src/lib.rs:60-78 | a row is a `tr` whose first class is `TableRow`, has class `active` iff active, has `data-id` = decimal id, and has 1+\|props\| children: the `#id` cell, then one cell per prop in order |
| View.TableShape | uibench_wasm_bindgen_clone/src/lib.rs:82-94 | the table has one child, a `tbody`, which holds exactly one row per item, in order |
| View.AnimShape | uibench_wasm_bindgen_clone/src/lib.rs:118-125 | one `AnimBox` per item, in order, each with `data-id` = decimal id |
| View.TreeLeafIgnoresChildren | uibench_wasm_bindgen_clone/src/lib.rs:129-133 | a leaf is its decimal id with no children; changing its children changes nothing |
| View.TreeNodeAbsent | uibench_wasm_bindgen_clone/src/lib.rs:137-150 | a node with absent children has no children |
| View.TreeChildrenShape | uibench_wasm_bindgen_clone/src/lib.rs:137-150 | one child per entry, in order: a nested TreeNode for a container, a leaf otherwise |
| View.TreeRootShape | uibench_wasm_bindgen_clone/src/lib.rs:154-162 | the tree's one child is the root rendered as a `TreeNode`, and the root's own flag does not matter |
| View.MainShape | uibench_wasm_bindgen_clone/src/lib.rs:166-187 | Main has exactly one child for table/anim/tree, and is a bare `Main` div otherwise |
| Decimal.ToDecimal | lib.rs:77 | `to_string` of an integer is a non-empty run of digits, with a leading zero only for 0 |
| Decimal.ParseToDecimal | lib.rs:77 | parsing the decimal text of n gives n back |
| Decimal.ToDecimalInjective | lib.rs:77 | distinct ids give distinct `data-id` texts |
| Dom.UpsertLookup | uibench_wasm_bindgen_clone/src/lib.rs:53 | after `set_attribute(name, v)`, reading `name` gives v and every other attribute reads as before |
| Dom.UpsertShape | uibench_wasm_bindgen_clone/src/lib.rs:53 | setting a new attribute appends it; setting an existing one keeps the length |
| Dom.AddClassShape | uibench_wasm_bindgen_clone/src/lib.rs:63 | `class_list().add_1(c)` appends c when it is absent and changes nothing otherwise; afterwards c is in the list |
| Dom.AppendToFirstChild | uibench_wasm_bindgen_clone/src/lib.rs:84-91 | appending through the first child adds the node as that child's last child and leaves the rest of the element alone |
| Dom.JoinTwo | uibench_wasm_bindgen_clone/src/lib.rs:192 | the class name of two classes is both joined by one space |
| Clone.Context.constructor | uibench_wasm_bindgen_clone/src/lib.rs:17-29 | a new context starts with an empty template cache |
| Clone.Context.GetTemplate | uibench_wasm_bindgen_clone/src/lib.rs:31-46 | a hit returns a copy of the stored template and leaves the cache unchanged; a miss compiles the snippet, stores it under that exact key and returns a copy; the keys grow by exactly this key; no old entry changes; a valid cache stays valid and the copy is the compiled snippet |
| Clone.CacheBound | uibench_wasm_bindgen_clone/src/lib.rs:49-164 | every key of a valid cache is one of the nine snippets, so it holds at most 9 templates |
| Clone.RenderTableCell | uibench_wasm_bindgen_clone/src/lib.rs:51-56 | the copied cell gets `data-text` and text equal to the prop, which is the cell view; the cache stays valid and only grows |
| Clone.RenderTableRow | uibench_wasm_bindgen_clone/src/lib.rs:60-78 | the copied row gains `active` only for active items, has `data-id` = id, the `#id` cell and one cell per prop: it equals the row view |
| Clone.RowEdits | uibench_wasm_bindgen_clone/src/lib.rs:61-66 | the class and attribute edits on the row template give the row view's head |
| Clone.RenderTable | uibench_wasm_bindgen_clone/src/lib.rs:82-94 | the rows are appended, in item order, to the template's first child (tbody), not to the table; the result is the table view |
| Clone.RenderAnimBox | uibench_wasm_bindgen_clone/src/lib.rs:98-114 | the background is set to `rgba(0,0,0,` + alpha, with no `)`; apart from the style the box equals the view's box; read as CSS reads it, it is the view's box |
| Clone.BoxStyleEdits | uibench_wasm_bindgen_clone/src/lib.rs:105-110 | setting the two properties on the bare template gives exactly those two declarations, in that order |
| Clone.BoxStyleCloses | uibench_wasm_bindgen_clone/src/lib.rs:102-110 | read as CSS reads them, the two declarations the clone sets are the markup's inline style |
| Clone.RenderAnim | uibench_wasm_bindgen_clone/src/lib.rs:118-125 | one box appended per item, in order; read as CSS reads it, the result is the anim view |
| Clone.RenderTreeLeaf | uibench_wasm_bindgen_clone/src/lib.rs:129-133 | the copied leaf's text is the decimal id: it is the leaf view |
| Clone.RenderTreeNode | uibench_wasm_bindgen_clone/src/lib.rs:137-150 | container children recurse, the others become leaves, absent children leave the node empty: it is the node view |
| Clone.RenderTree | uibench_wasm_bindgen_clone/src/lib.rs:154-162 | the root is appended as a TreeNode whatever its flag: it is the tree view |
| Clone.RenderMain | uibench_wasm_bindgen_clone/src/lib.rs:166-187 | Main gets one child for a known location and none otherwise; read as CSS reads it, it is the main view |
| Clone.TableUnstyled | uibench_wasm_bindgen_clone/src/lib.rs:82-94 | the table sets no style, so reading its styles changes nothing |
| Clone.TreeUnstyled | uibench_wasm_bindgen_clone/src/lib.rs:154-162 | the tree sets no style, so reading its styles changes nothing |
| Clone.TreeNodeUnstyled | uibench_wasm_bindgen_clone/src/lib.rs:137-150 | no tree node sets a style, at any depth |
| Clone.App.Update | uibench_wasm_bindgen_clone/src/lib.rs:213-218 | the container is emptied and then holds exactly one element, the main view read as CSS reads it; the cache stays valid, only grows, and holds at most 9 templates |
| Css.CloseValue | uibench_wasm_bindgen_clone/src/lib.rs:108-110 | a value read as CSS reads it extends the written text and leaves no function open |
| Css.CloseOneOpen | uibench_wasm_bindgen_clone/src/lib.rs:108-110 | a value with exactly one function left open is read with one `)` added |
| Css.BalancedUnchanged | uibench_wasm_bindgen_clone/src/lib.rs:103-105 | a balanced value is read as written |
| Css.CloseStylesUnstyled | uibench_wasm_bindgen_clone/src/lib.rs:127-162 | reading styles changes nothing in a tree without any style |
| Css.CloseStylesAppend | uibench_wasm_bindgen_clone/src/lib.rs:121 | reading styles commutes with `append_child` |
| Events.ClickOnCell | lib.rs:156-166 | a click on any rendered cell reports the text the cell shows |
| Events.ClickOnRow | lib.rs:156-166 | a click on a row, active or not, passes through |
| Events.ClickNeedsExactClass | lib.rs:159-160 | an element with `TableCell` and one more class passes through: the class name must match exactly |
| Events.ClickOnBareCell | lib.rs:160-161 | a `TableCell` without `data-text` makes the handler fail (`unwrap` of a missing attribute) |
| Agreement.RenderBoth | lib.rs:145-154 | for every state, the markup backend's string is the serialization of the clone backend's tree read as CSS reads it; that tree, read as CSS reads it, is the main view, and the string is the main view's serialization |
| Markup.UnescapedValueAmbiguous | lib.rs:63-66 | attribute values are written unescaped, so two different elements can have the same text: a value holding `' b='` serializes like an extra attribute `b` |
| Agreement.BackgroundNeedsClosing | uibench_wasm_bindgen_clone/src/lib.rs:108-110 | the clone's background text differs from the markup's, and CSS reads both the same |
| Agreement.RenderTableBoth | uibench_wasm_bindgen_clone/src/lib.rs:82-94 | for the table workload, the clone's tree is the view itself and the markup is its serialization |
| Agreement.RenderTreeBoth | uibench_wasm_bindgen_clone/src/lib.rs:154-162 | for the tree workload, the clone's tree is the view itself and the markup is its serialization |

## Left out

- Float arithmetic and formatting in both anim box renderers (`time % 10.0`, `/ 10.0 + 0.5`, `f32::to_string`) are the `View.AnimText` parameter. No numeric bounds on radius or alpha are stated.
- HTML parsing by the `<template>` compiler is `Clone.Compile`, a table over the nine snippets. `Clone.Context.GetTemplate` requires one of those snippets, the only keys the source ever passes. Browser `cloneNode` is a copy of the value.
- Copies of a node are values, so an edit to a returned copy cannot reach the cache. The renderers' `CacheValid` postcondition records this: every stored template is still the compiled snippet.
- `tbody` is a live reference into the copied table in the source. The model writes the row back through `Dom.AppendToFirstChild`, because Dafny values have no aliasing.
- The `document` and `compiler` fields of `Context` are browser handles. Only `templates` is modelled.
- Clone.RenderTableCell, Clone.RenderTableRow, Clone.RenderTable, Clone.RenderAnimBox, Clone.RenderAnim, Clone.RenderTreeLeaf, Clone.RenderTreeNode, Clone.RenderTree, Clone.RenderMain: each states only that the cache stays valid and never loses a key. The exact set of keys added is stated only for `Clone.Context.GetTemplate`.
- Both `run()` functions: the `#App` lookup, `Closure::wrap`/`forget`, the `set_onclick` registration and the re-binding loop over `.TableCell` elements are host glue. So are the `finish` closures and `uibench::init`/`run`.
- serde deserialisation (`into_serde`) and `unchecked_ref` casts are assumed to succeed. The state arrives already typed.
- The handler's `console::log_2`, `prevent_default` and `stop_propagation` are reduced to the `Events.Click` value. The `e.target().unwrap()` panic is not modelled.
- HTML escaping: neither backend escapes props, and the model does not either. `Markup.Serialize` writes attribute values and text unchanged, so the text alone does not determine the element (`Markup.UnescapedValueAmbiguous`).
- The browser's parse of the markup into a tree is not modelled. The agreement theorems relate the markup text to the clone's tree, but not the tree the markup backend ends up with. For a prop holding `'`, `<` or `&`, that tree differs in the source.
  - Example: with the prop `a' b='c`, lib.rs:63-66 writes `data-text='a' b='c'`, which parses to a cell whose `data-text` is `a`, plus an attribute `b`.
  - The clone backend stores `a' b='c` as written (uibench_wasm_bindgen_clone/src/lib.rs:53-54).
  - So `handle_click` reports different text in the two backends (lib.rs:161 against uibench_wasm_bindgen_clone/src/lib.rs:194).
  - The same goes for entities: the prop `x&amp;y` reads back as `x&y` on the markup side only.
- Markup.Renderer.Update: the buffer's 75 000-byte initial capacity is an allocation detail and is not modelled.
- `u32` ids: the model keeps the bound in the type. No id arithmetic is done, so there is no wrap-around to model.
