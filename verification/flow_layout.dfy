/**
 * The flow container's drop/reorder engine (FlowLayout.tsx): the drag-session
 * state the module keeps between events, and what a drop computes from it.
 *
 * `Drop` is the reference definition of a drop, written with whole-list
 * operations; `DragSession.HandleDrop` performs the same drop the way the
 * handler does, splicing a copy of the child list in place, and is proved to
 * agree with `Drop`. The properties of a drop are lemmas about `Drop` (see
 * flow_layout_properties.dfy).
 */
module FlowLayout {
  import opened Types
  import opened JsArray

  /** The side of the hovered child the indicator line is drawn on. */
  datatype Where = Before | After

  /** Where the indicator line is: the hovered child's index (-1 = none) and the side. */
  datatype Indicator = Indicator(index: int, where: Where)

  /** The indicator at load time and after every reset. */
  const NoIndicator: Indicator := Indicator(-1, Before)

  /**
   * What a drop hands on: `Ignored` when the handler returns early; otherwise
   * the updated copy of the target container, the updated copy of the origin
   * container (`None` when there is none to update) and the dropped item as
   * it is passed to `onDrop`.
   */
  datatype DropOutcome =
    | Ignored
    | Dropped(target: LayoutItem, origin: Option<LayoutItem>, item: LayoutItem)

  /** The dragged item is the container itself. */
  predicate IsSelf(item: LayoutItem, layoutItem: LayoutItem) {
    item.i == layoutItem.i && item.isContainer
  }

  /**
   * The `checkArray` test on a child list. Its source is not part of this
   * model; it is taken to mean "an array with at least one element", which is
   * how the container's render uses it to pick the empty-container view.
   */
  predicate CheckArray(children: Option<seq<LayoutItem>>) {
    children.Some? && |children.value| > 0
  }

  /** `children.findIndex(item => item.i === id)`: the first child with that id, or -1. */
  function IndexOfId(children: seq<LayoutItem>, id: string): (k: int)
    ensures -1 <= k < |children|
    ensures k >= 0 ==> children[k].i == id
    ensures forall j :: 0 <= j < |children| && (k == -1 || j < k) ==> children[j].i != id
  {
    if children == [] then -1
    else if children[0].i == id then 0
    else
      var k := IndexOfId(children[1..], id);
      if k == -1 then -1 else k + 1
  }

  /**
   * `children?.findIndex(...)` on an optional child list. On a missing list
   * the source gets `undefined`, which fails `> -1` exactly as -1 does.
   */
  function ItemIndex(children: Option<seq<LayoutItem>>, id: string): (k: int)
    ensures k >= 0 ==> children.Some? && k < |children.value| && children.value[k].i == id
    ensures k < 0 ==> k == -1 && (children.Some? ==> forall c :: c in children.value ==> c.i != id)
  {
    match children
    case None => -1
    case Some(cs) => IndexOfId(cs, id)
  }

  /** `children.filter(item => item.i !== id)`. */
  function WithoutId(children: seq<LayoutItem>, id: string): (r: seq<LayoutItem>)
    ensures |r| <= |children|
    ensures forall c :: c in r ==> c in children && c.i != id
  {
    if children == [] then []
    else if children[0].i == id then WithoutId(children[1..], id)
    else [children[0]] + WithoutId(children[1..], id)
  }

  /** The ids of a child list, in order. */
  function Ids(children: seq<LayoutItem>): (r: seq<string>)
    ensures |r| == |children|
    ensures forall k :: 0 <= k < |children| ==> r[k] == children[k].i
  {
    seq(|children|, k requires 0 <= k < |children| => children[k].i)
  }

  /** `moveCardItem`: the drop's template item, owned by the target container. */
  function MoveCardItem(droppingItem: LayoutItem, layoutItem: LayoutItem): (r: LayoutItem)
    ensures r.parentId == Some(layoutItem.i)
    ensures r.(parentId := droppingItem.parentId) == droppingItem
  {
    droppingItem.(parentId := Some(layoutItem.i))
  }

  /**
   * The splice index for re-inserting a child taken out of position
   * `itemIndex`: the list is one shorter below a forward target.
   */
  function ReorderInsertIndex(indicator: Indicator, itemIndex: int): int {
    if indicator.index > itemIndex then
      (if indicator.where == Before then indicator.index - 1 else indicator.index)
    else
      (if indicator.where == Before then indicator.index else indicator.index + 1)
  }

  /** The splice index for inserting a new child into a list that already has children. */
  function InsertIndex(indicator: Indicator): int {
    if indicator.where == Before then indicator.index else indicator.index + 1
  }

  /** `s` with its element at `from` moved so that it ends up at position `to`. */
  function MoveTo<T>(s: seq<T>, from: nat, to: nat): seq<T>
    requires from < |s| && to < |s|
  {
    InsertAt(RemoveAt(s, from), to, s[from])
  }

  /** Where a child moved from `itemIndex` ends up for the given indicator. */
  function ReorderLanding(indicator: Indicator, itemIndex: nat, n: nat): nat
    requires itemIndex < n
  {
    ActualStart(n - 1, ReorderInsertIndex(indicator, itemIndex))
  }

  /** The child list after moving the child at `itemIndex` to the indicator. */
  function Reordered<T>(s: seq<T>, itemIndex: nat, indicator: Indicator): seq<T>
    requires itemIndex < |s|
  {
    MoveTo(s, itemIndex, ReorderLanding(indicator, itemIndex, |s|))
  }

  /** Where a new child lands in a list of `n` children for the given indicator. */
  function InsertLanding(indicator: Indicator, n: nat): nat {
    ActualStart(n, InsertIndex(indicator))
  }

  /**
   * The target's child list after a drop from elsewhere: a list with children
   * gets `x` at the indicator; a missing or empty list becomes `[x]`.
   */
  function Inserted(children: Option<seq<LayoutItem>>, indicator: Indicator, x: LayoutItem): seq<LayoutItem> {
    if CheckArray(children) then InsertAt(children.value, InsertLanding(indicator, |children.value|), x)
    else [x]
  }

  /** The origin container with every child of the dragged id removed (its missing list stays missing). */
  function OriginWithout(preLayoutItem: Option<LayoutItem>, id: string): Option<LayoutItem> {
    match preLayoutItem
    case None => None
    case Some(p) =>
      Some(p.(children := match p.children
                          case None => None
                          case Some(cs) => Some(WithoutId(cs, id))))
  }

  /** The item that a drop from elsewhere places into the target. */
  function Placed(dragItem: LayoutItem, dragIsObject: bool, layoutItem: LayoutItem, droppingItem: LayoutItem): LayoutItem {
    if dragIsObject then dragItem.(parentId := Some(layoutItem.i))
    else MoveCardItem(droppingItem, layoutItem)
  }

  /**
   * A drop of `dragItem` onto the container `layoutItem`, with the session's
   * current `indicator` and origin container `preLayoutItem`. `dragIsObject`
   * is the verdict of `checkObject(dragItem)` and `droppingItem` the template
   * for a freshly dropped component.
   */
  function Drop(indicator: Indicator, preLayoutItem: Option<LayoutItem>, dragItem: LayoutItem,
                dragIsObject: bool, layoutItem: LayoutItem, droppingItem: LayoutItem): (r: DropOutcome)
    // the drop is ignored exactly for the container itself and for its own position
    ensures r.Ignored? <==>
              IsSelf(dragItem, layoutItem) ||
              (ItemIndex(layoutItem.children, dragItem.i) >= 0 &&
               indicator.index == ItemIndex(layoutItem.children, dragItem.i))
    // only the target's child list changes, and the target keeps a child list
    ensures r.Dropped? ==> r.target == layoutItem.(children := r.target.children) && r.target.children.Some?
    // a move within the target drops the origin copy and passes the item on untouched
    ensures r.Dropped? && ItemIndex(layoutItem.children, dragItem.i) >= 0 ==>
              r.origin == None && r.item == dragItem
    // a drop from elsewhere updates the origin copy and hands on the item it placed
    ensures r.Dropped? && ItemIndex(layoutItem.children, dragItem.i) < 0 ==>
              r.origin == OriginWithout(preLayoutItem, dragItem.i) &&
              r.item == (if dragIsObject then Placed(dragItem, dragIsObject, layoutItem, droppingItem) else dragItem)
  {
    if IsSelf(dragItem, layoutItem) then Ignored
    else
      var itemIndex := ItemIndex(layoutItem.children, dragItem.i);
      if itemIndex > -1 then
        if indicator.index == itemIndex then Ignored
        else Dropped(layoutItem.(children := Some(Reordered(layoutItem.children.value, itemIndex, indicator))),
                     None, dragItem)
      else
        var placed := Placed(dragItem, dragIsObject, layoutItem, droppingItem);
        Dropped(layoutItem.(children := Some(Inserted(layoutItem.children, indicator, placed))),
                OriginWithout(preLayoutItem, dragItem.i),
                if dragIsObject then placed else dragItem)
  }

  /**
   * The module-level drag state: the indicator, the container the dragged
   * item came from, and whether a hover has been seen in this gesture.
   */
  class DragSession {
    var indicator: Indicator
    var preLayoutItem: Option<LayoutItem>
    var isHovered: bool

    /** The state when the module is loaded. */
    constructor ()
      ensures indicator == NoIndicator && preLayoutItem == None && !isHovered
    {
      indicator := NoIndicator;
      preLayoutItem := None;
      isHovered := false;
    }

    /** `resetIndicator`, run on a card's drag end and when the pointer is over the outer layout. */
    method ResetIndicator()
      modifies this
      ensures indicator == NoIndicator && !isHovered
      ensures preLayoutItem == old(preLayoutItem)
    {
      isHovered := false;
      indicator := NoIndicator;
    }

    /** `handleDragStart`: a child of `layoutItem` starts being dragged. */
    method DragStart(layoutItem: LayoutItem)
      modifies this
      ensures preLayoutItem == Some(layoutItem)
      ensures indicator == old(indicator) && isHovered == old(isHovered)
    {
      preLayoutItem := Some(layoutItem);
    }

    /** `handleDragEnd`: the drag of a child ends, with or without a drop. */
    method DragEnd()
      modifies this
      ensures preLayoutItem == None
      ensures indicator == old(indicator) && isHovered == old(isHovered)
    {
      preLayoutItem := None;
    }

    /**
     * The state update of `handleDragOver`: the pointer is over the child at
     * `index`, on the side `where` that the indicator locator reported.
     */
    method DragOver(index: nat, where: Where)
      modifies this
      ensures indicator == Indicator(index, where)
      ensures preLayoutItem == old(preLayoutItem) && isHovered == old(isHovered)
    {
      indicator := Indicator(index, where);
    }

    /**
     * The state part of `handleHover` on container `layoutItem`: `accepted`
     * tells whether the hover goes on to the `onHover` callback, and
     * `showPlaceholder` whether the empty-container indicator is painted.
     */
    method Hover(item: LayoutItem, layoutItem: LayoutItem) returns (accepted: bool, showPlaceholder: bool)
      modifies this
      ensures accepted <==> !IsSelf(item, layoutItem)
      ensures showPlaceholder <==> accepted && !old(isHovered) && !CheckArray(layoutItem.children)
      ensures isHovered == (old(isHovered) || accepted)
      ensures indicator == old(indicator) && preLayoutItem == old(preLayoutItem)
    {
      if item.isContainer && item.i == layoutItem.i {
        return false, false;
      }
      accepted, showPlaceholder := true, false;
      if !isHovered {
        isHovered := true;
        if !CheckArray(layoutItem.children) {
          showPlaceholder := true;
        }
      }
    }

    /**
     * `handleDrop` on the container `layoutItem`. It works on copies (the
     * source's JSON deep copies are plain values here), splices the copy's
     * child list in place and changes none of the session state.
     */
    method HandleDrop(dragItem: LayoutItem, dragIsObject: bool, layoutItem: LayoutItem, droppingItem: LayoutItem)
      returns (outcome: DropOutcome)
      ensures outcome == Drop(indicator, preLayoutItem, dragItem, dragIsObject, layoutItem, droppingItem)
    {
      if dragItem.i == layoutItem.i && dragItem.isContainer {
        return Ignored;
      }
      var newItem := MoveCardItem(droppingItem, layoutItem);
      var newLayoutItem := layoutItem;
      var newPreLayoutItem := preLayoutItem;
      var dropped := dragItem;
      var itemIndex := ItemIndex(newLayoutItem.children, dragItem.i);
      if itemIndex > -1 {
        newPreLayoutItem := None;
        if indicator.index == itemIndex {
          return Ignored;
        }
        var children := SpliceMove(newLayoutItem.children.value, itemIndex, indicator);
        newLayoutItem := newLayoutItem.(children := Some(children));
      } else {
        if dragIsObject {
          dropped := dropped.(parentId := Some(newLayoutItem.i));
          var children := SpliceInsert(newLayoutItem.children, indicator, dropped);
          newLayoutItem := newLayoutItem.(children := Some(children));
        } else {
          var children := SpliceInsert(newLayoutItem.children, indicator, newItem);
          newLayoutItem := newLayoutItem.(children := Some(children));
        }
        if newPreLayoutItem.Some? {
          var pre := newPreLayoutItem.value;
          newPreLayoutItem := Some(pre.(children := match pre.children
                                                    case None => None
                                                    case Some(cs) => Some(WithoutId(cs, dragItem.i))));
        }
      }
      outcome := Dropped(newLayoutItem, newPreLayoutItem, dropped);
    }
  }

  /**
   * The reorder step of `handleDrop`: take the child at `itemIndex` out of the
   * list with `splice(itemIndex, 1)` and splice it back in at the adjusted
   * indicator position.
   */
  method SpliceMove(children: seq<LayoutItem>, itemIndex: nat, indicator: Indicator) returns (r: seq<LayoutItem>)
    requires itemIndex < |children|
    ensures r == Reordered(children, itemIndex, indicator)
  {
    var insertIndex;
    if indicator.index > itemIndex {
      insertIndex := if indicator.where == Before then indicator.index - 1 else indicator.index;
    } else {
      insertIndex := if indicator.where == Before then indicator.index else indicator.index + 1;
    }
    var taken := Splice(children, itemIndex, 1, []);
    SpliceRemovesOne(children, itemIndex);
    var insertItem := taken.removed[0];
    r := taken.rest;
    SpliceInsertsOne(r, insertIndex, insertItem);
    r := Splice(r, insertIndex, 0, [insertItem]).rest;
  }

  /**
   * The insertion step of `handleDrop` for an item from elsewhere: splice `x`
   * in at the indicator when the list has children, otherwise make `[x]` the
   * list.
   */
  method SpliceInsert(children: Option<seq<LayoutItem>>, indicator: Indicator, x: LayoutItem) returns (r: seq<LayoutItem>)
    ensures r == Inserted(children, indicator, x)
  {
    if CheckArray(children) {
      var insertIndex := if indicator.where == Before then indicator.index else indicator.index + 1;
      SpliceInsertsOne(children.value, insertIndex, x);
      r := Splice(children.value, insertIndex, 0, [x]).rest;
    } else {
      r := [x];
    }
  }
}
