/**
 * The grid item component (Item.tsx): the resize controller that keeps the
 * active resize direction and the live size override in the component state,
 * locks an axis of the reported size, and the rules its render applies
 * (resize handles, size constraints, drag flag, style override).
 *
 * The grid helpers `calcWH`, `getWH` and `calcGridItemPosition` are not part
 * of this model: they are arbitrary functions handed in as a `GridMath`
 * value, so everything proved here holds whatever they compute.
 */
module GridItem {
  import opened Types

  /** react-resizable's handles: 's', 'w', 'e', 'n', 'sw', 'nw', 'se', 'ne'. */
  datatype Handle = S | W | E | N | SW | NW | SE | NE

  /** The three resize callbacks that all go through `handleResize`. */
  datatype ResizeEvent = OnResizeStart | OnResize | OnResizeStop

  /** A size in pixels as react-resizable reports it. */
  datatype Size = Size(width: int, height: int)

  /**
   * The component state `ItemStates`: the live size override (`None` is
   * `null`) and the stored resize direction (`None` is the empty string).
   */
  datatype ItemState = ItemState(resizing: Option<Size>, direction: Option<Handle>)

  /** The state a freshly mounted item starts in. */
  const InitialState: ItemState := ItemState(None, None)

  /** The per-render grid configuration `PositionParams`. */
  datatype PositionParams = PositionParams(
    margin: (int, int),
    containerPadding: (int, int),
    cols: int,
    containerWidth: int,
    rowHeight: int,
    maxRows: int)

  /** The props of an item that the modelled logic reads. */
  datatype ItemProps = ItemProps(
    data: LayoutItem,
    leftSpacing: Option<int>,
    margin: (int, int),
    containerPadding: (int, int),
    cols: int,
    containerWidth: int,
    rowHeight: int,
    maxRows: int,
    resizeHandles: seq<Handle>)

  /** A width/height pair as `calcWH` and `getWH` return it. */
  datatype WH = WH(w: int, h: int)

  /** A pixel rectangle as `calcGridItemPosition` returns it. */
  datatype Rect = Rect(left: int, top: int, width: int, height: int)

  /**
   * The grid helpers from the utilities module: `calcWH(params, width,
   * height, x, y, leftSpacing)`, `getWH(item, params, leftSpacing)` and
   * `calcGridItemPosition(params, x, y, w, h, state?)`.
   */
  datatype GridMath = GridMath(
    calcWH: (PositionParams, int, int, int, int, Option<int>) -> WH,
    getWH: (LayoutItem, PositionParams, Option<int>) -> WH,
    calcGridItemPosition: (PositionParams, int, int, int, int, Option<ItemState>) -> Rect)

  /** What a resize callback is called with: `(data, w, h, handle)`. */
  datatype ResizeCall = ResizeCall(event: ResizeEvent, data: LayoutItem, w: int, h: int, handle: Handle)

  /** `getPositionParams`: the grid configuration picked out of the props. */
  function GetPositionParams(props: ItemProps): (r: PositionParams)
    ensures r.margin == props.margin && r.containerPadding == props.containerPadding
    ensures r.cols == props.cols && r.containerWidth == props.containerWidth
    ensures r.rowHeight == props.rowHeight && r.maxRows == props.maxRows
  {
    PositionParams(props.margin, props.containerPadding, props.cols, props.containerWidth, props.rowHeight, props.maxRows)
  }

  /**
   * The size `handleResize` derives before locking: the pixel size turned
   * into grid units by `calcWH`, put on a copy of the item, and measured
   * again by `getWH`.
   */
  function SnappedWH(props: ItemProps, math: GridMath, size: Size): WH {
    var params := GetPositionParams(props);
    var c := math.calcWH(params, size.width, size.height, props.data.x, props.data.y, props.leftSpacing);
    math.getWH(props.data.(w := c.w, h := c.h), params, props.leftSpacing)
  }

  /** The stored directions for which the width is held at the item's own `w`: 'w' and 's'. */
  predicate KeepsWidth(direction: Option<Handle>) {
    direction == Some(W) || direction == Some(S)
  }

  /** The stored directions for which the height is held at the item's own `h`: 'e' and 'n'. */
  predicate KeepsHeight(direction: Option<Handle>) {
    direction == Some(E) || direction == Some(N)
  }

  /**
   * The axis lock of `handleResize` applied to the derived size `wh`, for the
   * stored `direction`: at most one dimension is reset to the item's own, and
   * the other is always the derived one.
   */
  function LockAxes(direction: Option<Handle>, data: LayoutItem, wh: WH): (r: WH)
    ensures KeepsWidth(direction) ==> r.w == data.w && r.h == wh.h
    ensures KeepsHeight(direction) ==> r.h == data.h && r.w == wh.w
    ensures !KeepsWidth(direction) && !KeepsHeight(direction) ==> r == wh
    ensures r.w == wh.w || r.w == data.w
    ensures r.h == wh.h || r.h == data.h
  {
    if KeepsWidth(direction) then wh.(w := data.w)
    else if KeepsHeight(direction) then wh.(h := data.h)
    else wh
  }

  /**
   * The state after one resize event: the start records its handle as the
   * direction, the stop clears it, a move keeps it; the size override is the
   * event's size, except that the stop clears it.
   */
  function NextState(s: ItemState, event: ResizeEvent, size: Size, handle: Handle): (r: ItemState)
    ensures event == OnResizeStart ==> r.direction == Some(handle)
    ensures event == OnResize ==> r.direction == s.direction
    ensures event == OnResizeStop ==> r == InitialState
    ensures event != OnResizeStop ==> r.resizing == Some(size)
  {
    var direction := match event
      case OnResizeStart => Some(handle)
      case OnResizeStop => None
      case OnResize => s.direction;
    ItemState(if event == OnResizeStop then None else Some(size), direction)
  }

  /** `flowLayoutHandles` for flow containers, otherwise the handles from the props. */
  function ResizeHandlesFor(data: LayoutItem, resizeHandles: seq<Handle>): seq<Handle> {
    if data.isContainer then [W, E] else resizeHandles
  }

  /**
   * How many columns wide the maximum width is: the columns from the item's
   * `x` to the right edge, plus the left spacing unless the stored direction
   * is a right-edge handle ('e' or 'se').
   */
  function MaxWidthColumns(cols: int, x: int, direction: Option<Handle>, leftSpacing: int): int {
    var calcOffset := if direction == Some(E) || direction == Some(SE) then 0 else leftSpacing;
    cols - x + calcOffset
  }

  /** The `draggable` flag handed to the drag wrapper. */
  function IsDraggable(data: LayoutItem): bool {
    data.isStatic != Some(true) && data.draggable != Some(false)
  }

  /** What the render hands to the resizable box and the drag wrapper. */
  datatype Rendered = Rendered(
    style: Rect,
    resizeHandles: seq<Handle>,
    minConstraints: (int, int),
    maxWidth: int,   // the max height is unbounded (`Infinity`)
    draggable: bool)

  /** `getPosition`: the item's pixel rectangle for the current state (`setTransform` is taken as the identity). */
  function GetPosition(data: LayoutItem, params: PositionParams, state: ItemState, math: GridMath): Rect {
    math.calcGridItemPosition(params, data.x, data.y, data.w, data.h, Some(state))
  }

  /** `{...position, ...resizing}`: the live size, when there is one, overrides the computed one. */
  function Styled(position: Rect, resizing: Option<Size>): Rect {
    match resizing
    case None => position
    case Some(sz) => position.(width := sz.width, height := sz.height)
  }

  /**
   * The logic of `render`, with the JSX left out: the style is the grid
   * position with the live size laid over it; a flow container only gets the
   * 'w' and 'e' handles; the minimum width is one column wide; the maximum
   * width spans the columns from `x` to the right edge, plus the left spacing
   * unless the stored direction is 'e' or 'se'; the item can be dragged
   * unless it is static or explicitly not draggable.
   */
  function Render(props: ItemProps, state: ItemState, math: GridMath): (r: Rendered)
    ensures var position := GetPosition(props.data, GetPositionParams(props), state, math);
      r.style.left == position.left && r.style.top == position.top &&
      (state.resizing.None? ==> r.style == position) &&
      (state.resizing.Some? ==> r.style.width == state.resizing.value.width &&
                                r.style.height == state.resizing.value.height)
    ensures props.data.isContainer ==> r.resizeHandles == [W, E]
    ensures !props.data.isContainer ==> r.resizeHandles == props.resizeHandles
    ensures var width := (n: int) => math.calcGridItemPosition(GetPositionParams(props), 0, 0, n, 0, None).width;
      r.minConstraints == (width(1), 10) &&
      (state.direction == Some(E) || state.direction == Some(SE) ==> r.maxWidth == width(props.cols - props.data.x)) &&
      (state.direction != Some(E) && state.direction != Some(SE) ==>
         r.maxWidth == width(props.cols - props.data.x + props.leftSpacing.GetOr(0)))
    ensures r.draggable <==> props.data.isStatic != Some(true) && props.data.draggable != Some(false)
  {
    var params := GetPositionParams(props);
    var position := GetPosition(props.data, params, state, math);
    var minWidth := math.calcGridItemPosition(params, 0, 0, 1, 0, None).width;
    var columns := MaxWidthColumns(props.cols, props.data.x, state.direction, props.leftSpacing.GetOr(0));
    var maxWidth := math.calcGridItemPosition(params, 0, 0, columns, 0, None).width;
    Rendered(Styled(position, state.resizing), ResizeHandlesFor(props.data, props.resizeHandles),
             (minWidth, 10), maxWidth, IsDraggable(props.data))
  }

  /** The `Item` component: its state, and the resize handlers that update it. */
  class Item {
    var state: ItemState

    constructor ()
      ensures state == InitialState
    {
      state := InitialState;
    }

    /**
     * `handleResize`. The axis lock uses the direction stored BEFORE this
     * event updates it; the callback gets the item's own `data` with the
     * locked size and the event's handle.
     */
    method HandleResize(props: ItemProps, math: GridMath, event: ResizeEvent, size: Size, handle: Handle)
      returns (call: ResizeCall)
      modifies this
      ensures state == NextState(old(state), event, size, handle)
      ensures var wh := LockAxes(old(state).direction, props.data, SnappedWH(props, math, size));
        call == ResizeCall(event, props.data, wh.w, wh.h, handle)
    {
      var data, leftSpacing := props.data, props.leftSpacing;
      var direction := state.direction;
      if event == OnResizeStart {
        state := state.(direction := Some(handle));
      } else if event == OnResizeStop {
        state := state.(direction := None);
      }
      var positionParams := GetPositionParams(props);
      var c := math.calcWH(positionParams, size.width, size.height, data.x, data.y, leftSpacing);
      var item := data.(w := c.w, h := c.h);
      var wh := math.getWH(item, positionParams, leftSpacing);
      if direction == Some(W) || direction == Some(S) {
        wh := wh.(w := data.w);
      } else if direction == Some(E) || direction == Some(N) {
        wh := wh.(h := data.h);
      }
      state := state.(resizing := if event == OnResizeStop then None else Some(size));
      call := ResizeCall(event, data, wh.w, wh.h, handle);
    }

    /** `onResizeStart`. */
    method OnResizeStartHandler(props: ItemProps, math: GridMath, size: Size, handle: Handle) returns (call: ResizeCall)
      modifies this
      ensures state == ItemState(Some(size), Some(handle))
      ensures call.event == OnResizeStart && call.data == props.data && call.handle == handle
      ensures var wh := LockAxes(old(state).direction, props.data, SnappedWH(props, math, size));
        call.w == wh.w && call.h == wh.h
    {
      call := HandleResize(props, math, OnResizeStart, size, handle);
    }

    /** `onResize` (the throttling is left out). */
    method OnResizeHandler(props: ItemProps, math: GridMath, size: Size, handle: Handle) returns (call: ResizeCall)
      modifies this
      ensures state == ItemState(Some(size), old(state).direction)
      ensures call.event == OnResize && call.data == props.data && call.handle == handle
      ensures var wh := LockAxes(old(state).direction, props.data, SnappedWH(props, math, size));
        call.w == wh.w && call.h == wh.h
    {
      call := HandleResize(props, math, OnResize, size, handle);
    }

    /** `onResizeStop`. */
    method OnResizeStopHandler(props: ItemProps, math: GridMath, size: Size, handle: Handle) returns (call: ResizeCall)
      modifies this
      ensures state == InitialState
      ensures call.event == OnResizeStop && call.data == props.data && call.handle == handle
      ensures var wh := LockAxes(old(state).direction, props.data, SnappedWH(props, math, size));
        call.w == wh.w && call.h == wh.h
    {
      call := HandleResize(props, math, OnResizeStop, size, handle);
    }
  }
}
