/** Shared data model: the layout tree node that both components read. */
module Types {

  /** `undefined` / `null` versus a present value. */
  datatype Option<+T> = None | Some(value: T) {
    function GetOr(default: T): T {
      match this
      case Some(v) => v
      case None => default
    }
  }

  /**
   * A node of the layout tree. Grid geometry is in grid units. `children` is
   * present only on flow containers, and its order is the flow order.
   * The source's `static` flag is called `isStatic` here (`static` is a
   * Dafny keyword); optional flags are `None` when the property is absent.
   */
  datatype LayoutItem = LayoutItem(
    i: string,
    x: int,
    y: int,
    w: int,
    h: int,
    parentId: Option<string>,
    isContainer: bool,
    children: Option<seq<LayoutItem>>,
    isStatic: Option<bool>,
    draggable: Option<bool>,
    autoHeight: Option<bool>)
}
