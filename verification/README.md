# rgl-dnd: flow-container drops and item resizing, modelled in Dafny

This project models two pieces of sequential logic in the rgl-dnd grid layout library.

- **The flow container's drop/reorder engine** (`FlowLayout.tsx`). Dragging a card starts a drag session. That session lives in three module-level variables:
  - the insertion indicator `{index, where}`;
  - the container the card came from (`preLayoutItem`);
  - a first-hover flag.

  On a drop, the handler copies the target container and the origin container. It then does one of three things to the target's child list:
  - reorders a child the target already has;
  - splices in an item that comes from elsewhere;
  - makes a single-element list when the target has no children.

  It also filters the dragged item out of the origin's copy.
- **The grid item's resize controller** (`Item.tsx`). It stores the resize direction when a resize starts and clears it when it stops. It holds a live size override while the resize runs. It locks one axis of the size it reports. Its render picks the resize handles, the min/max width constraints and the drag flag.

Layout:

- `types.dfy`: module `Types`. The `LayoutItem` tree node and `Option`.
- `js_array.dfy`: module `JsArray`. `Array.prototype.splice` with its index rules:
  - a negative start counts back from the end, stopping at the front;
  - a start past the end appends;
  - the delete count is clamped.
- `flow_layout.dfy`: module `FlowLayout`.
  - `Drop` is a reference definition of a drop, built from whole-list operations (move, insert, filter).
  - The class `DragSession` holds the module state. Its handlers include `HandleDrop`, which splices a copy of the child list the way the source does. `HandleDrop` is proved equal to `Drop`.
- `flow_layout_properties.dfy`: the lemmas about `Drop`: permutation, landing position, insertion, origin filtering and conservation.
- `grid_item.dfy`: module `GridItem`. The class `Item` holds the component state and has `HandleResize`. Beside it are the pure functions `NextState`, `LockAxes` and `Render`.
- `grid_item_properties.dfy`: lemmas about whole resize gestures.

The utility helpers whose code is not part of this model are not given definitions:
- `calcWH`, `getWH` and `calcGridItemPosition` are arbitrary function values, bundled in `GridMath`;
- `checkObject(dragItem)` is a boolean input.

Everything proved about them therefore holds whatever they compute.

Behaviour of the code that is easy to misread (the model follows the code):

- **Axis-lock pairs.** The lock keeps the item's own width when the stored direction is `w` or `s`. It keeps the height when the direction is `e` or `n`. The comments at `Item.tsx:73` and `:76` pair `n`/`s` (keep width) and `w`/`e` (keep height).
- **Which direction the lock reads.** The lock uses the direction stored *before* the current event updates it. So a start event is locked by the previous direction: none, for an idle item.
- **No hover before the drop.** With the indicator still at `{-1, 'before'}`, the splice index is -1. `splice` counts -1 back from the end, so an inserted child goes in before the **last** child, not at the end (`NoHoverInsertGoesBeforeLastChild`). A reorder with no hover splices at -1 into the list without the moved child, so the child lands second to last (`NoHoverReorderGoesSecondToLast`).
- **When the reorder branch runs.** It is taken whenever the dragged id is already among the target's children, whatever the recorded origin is.
- **When the origin copy is filtered.** On a drop of an item the target does not hold, the origin copy is filtered whenever an origin is recorded, even if that origin is the target itself.
- **Empty child lists.** `checkArray` is taken to mean "a non-empty array", as the container's render uses it. So an empty child list is replaced by `[item]`, exactly as a missing one is.

## Model

| member | source | states |
|---|---|---|
| `JsArray.Splice` | src/components/FlowLayout.tsx:94-110 | Modelled `splice`. The result is as long as the input, minus what was removed, plus the new items. A start past the end removes nothing and appends. A negative start counts back from the end. A start further back than the length inserts at the front. A start inside the array removes the clamped count from there. In general, for every start and count, the delete count is clamped to between 0 and what lies past the normalised start. That many elements are removed from there, and the items go in their place. |
| `JsArray.SpliceConservesElements` | src/components/FlowLayout.tsx:94-99 | What `splice` leaves in the array, plus what it returns, is the input plus the new items, as multisets. |
| `JsArray.SpliceRemovesOne` | src/components/FlowLayout.tsx:94 | `splice(i, 1)` at an index inside the array returns exactly `[s[i]]` and leaves `s` without it. |
| `JsArray.SpliceInsertsOne` | src/components/FlowLayout.tsx:95 | `splice(start, 0, x)` removes nothing and puts `x` at the normalised start. |
| `FlowLayout.IndexOfId` | src/components/FlowLayout.tsx:86 | `findIndex` by id gives -1 or an index in range. At that index the id matches. No earlier child has the id. With -1, no child has it. |
| `FlowLayout.ItemIndex` | src/components/FlowLayout.tsx:86-87 | On an optional child list: a non-negative result is a valid index of a child with the dragged id. Otherwise the result is -1 and no child has the id. A missing list gives -1, which behaves as `undefined > -1` does. |
| `FlowLayout.WithoutId` | src/components/FlowLayout.tsx:123-125 | The filtered list is no longer than the input. Every element it keeps is from the input and has a different id. |
| `FlowLayout.MoveCardItem` | src/components/FlowLayout.tsx:49-54 | The template item comes out owned by the target container. All its other fields are the template's. |
| `FlowLayout.Drop` | src/components/FlowLayout.tsx:80-131 | A drop is ignored exactly when the dragged item is the container itself or is dropped on its own index. Only the target's child list changes. A move within the target discards the origin copy and passes the item on unchanged. A drop from elsewhere returns the filtered origin copy, and the item passed to `onDrop`. That item is `dragItem` with `parentId` set when `checkObject` holds. Otherwise it is `dragItem` unchanged, and the template goes only into the child list. |
| `FlowLayout.SpliceMove` | src/components/FlowLayout.tsx:92-100 | The two in-place splices of the reorder branch give `Reordered`: the child moved to the adjusted indicator position. |
| `FlowLayout.SpliceInsert` | src/components/FlowLayout.tsx:103-121 | The insertion branch splices the item in at the indicator when the list has children, and otherwise gives `[item]`. This equals `Inserted`. |
| `FlowLayout.DragSession.constructor` | src/components/FlowLayout.tsx:20-30 | At load time the indicator is `{-1, 'before'}`, there is no origin and no hover has been seen. |
| `FlowLayout.DragSession.ResetIndicator` | src/components/FlowLayout.tsx:66-77 | Restores the indicator to `{-1, 'before'}` and clears the hover flag. The origin is left as it was. |
| `FlowLayout.DragSession.DragStart` | src/components/FlowLayout.tsx:149-151 | Records the current container as the origin. Nothing else changes. |
| `FlowLayout.DragSession.DragEnd` | src/components/FlowLayout.tsx:153-155 | Clears the origin. Nothing else changes. |
| `FlowLayout.DragSession.DragOver` | src/components/FlowLayout.tsx:181-192 | Sets the indicator to the hovered child's index and the reported side. Nothing else changes. |
| `FlowLayout.DragSession.Hover` | src/components/FlowLayout.tsx:133-147 | A container hovering over itself is ignored and changes nothing. Any other hover sets the hover flag. It paints the empty-container placeholder only on the first hover of the gesture, and only over a container without children. |
| `FlowLayout.DragSession.HandleDrop` | src/components/FlowLayout.tsx:80-131 | The handler, splicing copies in place, computes exactly `Drop` for the session's current indicator and origin, and changes no session state. |
| `FlowLayoutProperties.MoveToIsPermutation` | src/components/FlowLayout.tsx:94-95 | Taking an element out and putting it back elsewhere keeps the length and the multiset. |
| `FlowLayoutProperties.MoveWithinTargetIsPermutation` | src/components/FlowLayout.tsx:86-100 | A drop of a child that is already in the target keeps the target's length and multiset of children, and discards the origin copy. |
| `FlowLayoutProperties.ReorderLandsNextToIndicatedChild` | src/components/FlowLayout.tsx:92-99 | When the indicator points at another child, the moved child lands at `index-1`/`index` for a forward move ('before'/'after'). It lands at `index`/`index+1` for a backward move. Either way it ends up right before ('before') or right after ('after') the indicated child, and the other children keep their order. |
| `FlowLayoutProperties.ReorderExample` | src/components/FlowLayout.tsx:92-95 | In `[x, y, z]`, dropping `y` with `{2, 'after'}` gives `[x, z, y]`, with no origin copy. |
| `FlowLayoutProperties.AdjacentBeforeKeepsOrder` | src/components/FlowLayout.tsx:92-95 | A drop with `{itemIndex+1, 'before'}` leaves the order unchanged. |
| `FlowLayoutProperties.NoHoverReorderGoesSecondToLast` | src/components/FlowLayout.tsx:96-99 | With the reset indicator `{-1, 'before'}`, a reordered child lands second to last: right before the child that ends up last. The others keep their order. |
| `FlowLayoutProperties.NoHoverReorderExample` | src/components/FlowLayout.tsx:86-99 | In `[x, y, z]`, dropping `x` with no hover first gives `[y, x, z]`, with no origin copy. |
| `FlowLayoutProperties.DropFromElsewhereInsertsOne` | src/components/FlowLayout.tsx:103-121 | An item from elsewhere goes into a target with children as follows. The list grows by exactly one. The new child is owned by the target: it is the dragged item or the template, with `parentId` set. Removing it gives back the old children in order. A target without children gets exactly `[placed]`. |
| `FlowLayoutProperties.InsertLandsNextToIndicatedChild` | src/components/FlowLayout.tsx:104-107 | An inserted child lands right before ('before') or right after ('after') the child the indicator points at. |
| `FlowLayoutProperties.NoHoverInsertGoesBeforeLastChild` | src/components/FlowLayout.tsx:104-107 | With the reset indicator `{-1, 'before'}`, the new child is inserted before the last child. |
| `FlowLayoutProperties.WithoutIdKeepsOthers` | src/components/FlowLayout.tsx:123-125 | The filter keeps every child whose id differs. |
| `FlowLayoutProperties.WithoutIdOfConcat` | src/components/FlowLayout.tsx:123-125 | The filter distributes over concatenation, so the children it keeps stay in order. |
| `FlowLayoutProperties.WithoutIdNoMatch` | src/components/FlowLayout.tsx:123-125 | A list with no child of the dragged id is unchanged by the filter. |
| `FlowLayoutProperties.IdsOfWithoutId` | src/components/FlowLayout.tsx:123-125 | The filter removes every occurrence of the dragged id and no other id. |
| `FlowLayoutProperties.OriginLosesDraggedItem` | src/components/FlowLayout.tsx:122-126 | After a drop from elsewhere, the origin copy keeps its other fields. It has every child whose id differs, and no child with the dragged id. |
| `FlowLayoutProperties.CrossContainerDropConservesIds` | src/components/FlowLayout.tsx:103-126 | Moving an item between containers conserves the ids. Take an origin that holds the id once and a target that lacks it. The multiset of ids over both child lists is the same after the drop. |
| `FlowLayoutProperties.MoveIntoEmptyContainer` | src/components/FlowLayout.tsx:112-126 | Dragging `p` from `a` into an empty `b` gives `b` exactly `[p]` with `parentId = b`. No child of `a`'s copy keeps `p`'s id. |
| `GridItem.GetPositionParams` | src/components/Item.tsx:14-25 | The grid configuration is exactly the props' margin, container padding, columns, container width, row height and row limit. |
| `GridItemProperties.PositionDependsOnGeometryOnly` | src/components/Item.tsx:26-29 | `getPosition` depends only on the item's `x`, `y`, `w`, `h`, the grid configuration and the state. Items that agree on those get the same rectangle, and so do props that agree on the grid configuration. |
| `GridItem.LockAxes` | src/components/Item.tsx:73-79 | With the stored direction `w` or `s`, the width is the item's own `w`. With `e` or `n`, the height is its own `h`. The other dimension, and both for any other direction, is the derived size. |
| `GridItem.NextState` | src/components/Item.tsx:54-81 | A start records its handle as the direction. A move keeps the direction. A stop returns to the initial state: no direction, no live size. Start and move set the live size to the reported size. |
| `GridItem.Render` | src/components/Item.tsx:118-158 | The style is the grid position with the live size laid over it. A container gets only the `w`/`e` handles. The minimum width is one column. The maximum width spans `cols - x` columns, plus the left spacing unless the direction is `e`/`se`. The item is draggable exactly when it is not `static` and not `draggable: false`. |
| `GridItem.Item.constructor` | src/components/Item.tsx:32-35 | An item starts with no live size and no direction. |
| `GridItem.Item.HandleResize` | src/components/Item.tsx:47-83 | The new state is `NextState` of the old one. The callback gets the unmodified `data`, the event's handle, and the derived size locked by the direction stored before this event. |
| `GridItem.Item.OnResizeStartHandler` | src/components/Item.tsx:85-87 | A start stores the handle and the live size, and calls back with the item's own data, the handle, and the derived size locked by the direction stored before the event. |
| `GridItem.Item.OnResizeHandler` | src/components/Item.tsx:89-91 | A move stores the live size, keeps the direction, and calls back with the item's own data, the handle, and the derived size locked by the direction stored before the event. |
| `GridItem.Item.OnResizeStopHandler` | src/components/Item.tsx:93-95 | A stop returns the item to its initial state and calls back with the item's own data, the handle, and the derived size locked by the direction stored before the event. |
| `GridItemProperties.ReplayConcat` | src/components/Item.tsx:54-60 | Handling one run of events and then another is the same as handling the two runs in one sequence. |
| `GridItemProperties.MovesKeepDirection` | src/components/Item.tsx:56-60 | Moves never change the stored direction. |
| `GridItemProperties.GestureLocksByStartHandle` | src/components/Item.tsx:54-81 | In a gesture of a start with handle `h`, any number of moves and a stop, three things hold. The start's lock reads the previously stored direction. Every later event, the stop included, reads `h`. Afterwards the item is back in its initial state. |
| `GridItemProperties.OverrideFollowsGesture` | src/components/Item.tsx:81-123 | After a start or move, the rendered box has the reported size. After a stop, it is exactly the item's grid position. |

## Left out

- DOM work is left out: `setIndicatorPosition`, `querySelector` and style writes, `renderIndicator`, `movePlaceholder`, `getDOMInfo`, and `findPosition`. The side `where` it reports is an input of `DragOver`, and "paint the placeholder" is an output of `Hover`.
- React rendering is left out: hooks, the `useEffect` listener registration and cleanup, `renderItems` with `getFlowLayoutItem`, the JSX trees, the `layouts` state, `pickProps`, and `preventDefault`/`stopPropagation`. These are UI glue with no logic of their own.
- The event bus (`onFlowLayoutDrop`, `overFlowLayout`) and the `onHover`/`onDrop`/resize callbacks are not called. Instead, `Hover` reports whether `onHover` would be called, `HandleDrop` returns what `onDrop` would get, and `HandleResize` returns the callback's arguments.
- `getNewLayouts` is not part of this model. `HandleDrop` returns its inputs: the updated target copy and the updated origin copy. So the new top-level layout list is not built, and "no container ends up inside itself" is only proved locally: a container dropped on itself is ignored.
- `lodash.throttle` on drag-over and on `onResize` is left out. It is time-based coalescing.
- `calcWH`, `getWH` and `calcGridItemPosition` are arbitrary functions. `setTransform` is taken as the identity on the rectangle. Pixel values, which are floating point in the source, are integers here. So the grid-to-pixel maths and its rounding are not modelled.
- `checkObject` is not part of this model; its verdict on the dragged item is the input `dragIsObject`. `checkArray` is assumed to mean "a non-empty array".
- `HandleDrop` does not model aliasing. The source assigns `parentId` on the caller's own `dragItem` object. The model returns the updated item as the outcome's `item` and in the child list, and the caller's value is unchanged.
- The `Droppable` accept list, `canDrop`, `Draggable` and `react-resizable` are left out. They are foreign components.
- `FlowLayout.DragSession.DragOver`: the index is a natural number, since it comes from `forEach` over the container's child nodes. How child nodes map to children is not modelled.
- `GridItem.Render`: the caller's own `style` prop, spread under the position, and the class names are left out; they are presentation only.
