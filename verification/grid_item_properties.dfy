/**
 * What a whole resize gesture does to an item's state: a run of events
 * through `GridItem.NextState`, the order in which `Item.HandleResize` sees
 * them.
 */
module GridItemProperties {
  import opened Types
  import opened GridItem

  /** One call of `handleResize`: which callback, the reported size and the handle. */
  datatype ResizeInput = ResizeInput(event: ResizeEvent, size: Size, handle: Handle)

  /** The state after handling `inputs` in order, starting from `s`. */
  function Replay(s: ItemState, inputs: seq<ResizeInput>): ItemState
    decreases |inputs|
  {
    if inputs == [] then s
    else Replay(NextState(s, inputs[0].event, inputs[0].size, inputs[0].handle), inputs[1..])
  }

  /** The stored direction that the axis lock of each event reads, in order. */
  function DirectionsRead(s: ItemState, inputs: seq<ResizeInput>): (r: seq<Option<Handle>>)
    ensures |r| == |inputs|
    decreases |inputs|
  {
    if inputs == [] then []
    else [s.direction] + DirectionsRead(NextState(s, inputs[0].event, inputs[0].size, inputs[0].handle), inputs[1..])
  }

  /** Every event is a move (`onResize`). */
  predicate AllMoves(inputs: seq<ResizeInput>) {
    forall k :: 0 <= k < |inputs| ==> inputs[k].event == OnResize
  }

  /** Handling `a` and then `b` is handling `a + b`. */
  lemma {:induction false} ReplayConcat(s: ItemState, a: seq<ResizeInput>, b: seq<ResizeInput>)
    ensures Replay(s, a + b) == Replay(Replay(s, a), b)
    ensures DirectionsRead(s, a + b) == DirectionsRead(s, a) + DirectionsRead(Replay(s, a), b)
    decreases |a|
  {
    if a == [] {
      assert a + b == b;
    } else {
      assert (a + b)[0] == a[0];
      assert (a + b)[1..] == a[1..] + b;
      ReplayConcat(NextState(s, a[0].event, a[0].size, a[0].handle), a[1..], b);
    }
  }

  /** Moves never change the stored direction, so every move reads the direction it started with. */
  lemma {:induction false} MovesKeepDirection(s: ItemState, moves: seq<ResizeInput>)
    requires AllMoves(moves)
    ensures Replay(s, moves).direction == s.direction
    ensures forall k :: 0 <= k < |moves| ==> DirectionsRead(s, moves)[k] == s.direction
    decreases |moves|
  {
    if moves != [] {
      var s' := NextState(s, moves[0].event, moves[0].size, moves[0].handle);
      assert AllMoves(moves[1..]) by {
        forall k | 0 <= k < |moves[1..]| ensures moves[1..][k].event == OnResize {
          assert moves[1..][k] == moves[k + 1];
        }
      }
      MovesKeepDirection(s', moves[1..]);
    }
  }

  /**
   * A complete gesture, a start with handle `h`, any number of moves and a
   * stop: the start's own axis lock reads the direction stored before it
   * (for an idle item, none); every later event, the stop included, reads
   * `h`; and afterwards the item is back in its initial state, with no
   * direction and no live size.
   */
  lemma GestureLocksByStartHandle(s: ItemState, h: Handle, startSize: Size, moves: seq<ResizeInput>, stop: ResizeInput)
    requires AllMoves(moves) && stop.event == OnResizeStop
    ensures var inputs := [ResizeInput(OnResizeStart, startSize, h)] + moves + [stop];
      var read := DirectionsRead(s, inputs);
      |read| == |moves| + 2 &&
      read[0] == s.direction &&
      (forall k :: 1 <= k < |read| ==> read[k] == Some(h)) &&
      Replay(s, inputs) == InitialState
  {
    var start := [ResizeInput(OnResizeStart, startSize, h)];
    var started := Replay(s, start);
    assert started == NextState(s, OnResizeStart, startSize, h);
    ReplayConcat(s, start, moves);
    ReplayConcat(s, start + moves, [stop]);
    MovesKeepDirection(started, moves);
    var read := DirectionsRead(s, start + moves + [stop]);
    assert read == [s.direction] + DirectionsRead(started, moves) + [Replay(started, moves).direction];
    forall k | 1 <= k < |read| ensures read[k] == Some(h) {
      if k <= |moves| {
        assert read[k] == DirectionsRead(started, moves)[k - 1];
      }
    }
  }

  /**
   * `getPosition` reads only the item's grid geometry (`x`, `y`, `w`, `h`)
   * and the grid props: two items that agree on those, whatever their ids,
   * children or flags, and two props that agree on the grid configuration,
   * whatever their data, spacing or handles, get the same rectangle.
   */
  lemma PositionDependsOnGeometryOnly(p1: ItemProps, p2: ItemProps, d1: LayoutItem, d2: LayoutItem,
                                      state: ItemState, math: GridMath)
    requires d1.x == d2.x && d1.y == d2.y && d1.w == d2.w && d1.h == d2.h
    requires p1.margin == p2.margin && p1.containerPadding == p2.containerPadding && p1.cols == p2.cols
    requires p1.containerWidth == p2.containerWidth && p1.rowHeight == p2.rowHeight && p1.maxRows == p2.maxRows
    ensures GetPosition(d1, GetPositionParams(p1), state, math) == GetPosition(d2, GetPositionParams(p2), state, math)
  {
  }

  /**
   * The live size override over a gesture: after a start or a move the
   * rendered box has the reported size, and after the stop it is exactly the
   * item's grid position.
   */
  lemma OverrideFollowsGesture(props: ItemProps, math: GridMath, s: ItemState, event: ResizeEvent, size: Size, handle: Handle)
    ensures var s' := NextState(s, event, size, handle);
      var box := Render(props, s', math).style;
      (event != OnResizeStop ==> box.width == size.width && box.height == size.height) &&
      (event == OnResizeStop ==> box == GetPosition(props.data, GetPositionParams(props), InitialState, math))
  {
  }
}
