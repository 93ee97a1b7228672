/** What a drop onto a flow container guarantees, stated about `FlowLayout.Drop`. */
module FlowLayoutProperties {
  import opened Types
  import opened JsArray
  import opened FlowLayout

  /** The child list of a container, an absent list read as empty. */
  function Kids(item: LayoutItem): seq<LayoutItem> {
    item.children.GetOr([])
  }

  // ---------------------------------------------------------------- moves

  /** Moving one element keeps the length and the multiset of elements. */
  lemma MoveToIsPermutation<T>(s: seq<T>, from: nat, to: nat)
    requires from < |s| && to < |s|
    ensures |MoveTo(s, from, to)| == |s|
    ensures multiset(MoveTo(s, from, to)) == multiset(s)
  {
    var rest := RemoveAt(s, from);
    assert s == s[..from] + [s[from]] + s[from + 1..];
    assert multiset(s) == multiset(s[..from]) + multiset{s[from]} + multiset(s[from + 1..]);
    assert multiset(rest) == multiset(s[..from]) + multiset(s[from + 1..]);
    assert MoveTo(s, from, to) == rest[..to] + [s[from]] + rest[to..];
    assert rest == rest[..to] + rest[to..];
    assert multiset(rest) == multiset(rest[..to]) + multiset(rest[to..]);
    assert multiset(MoveTo(s, from, to)) == multiset(rest[..to]) + multiset{s[from]} + multiset(rest[to..]);
    assert multiset(MoveTo(s, from, to)) == multiset(rest) + multiset{s[from]};
  }

  /**
   * A drop of a child that is already in the target reorders the target's
   * children: same length, same children, and the origin copy is discarded.
   */
  lemma MoveWithinTargetIsPermutation(indicator: Indicator, preLayoutItem: Option<LayoutItem>, dragItem: LayoutItem,
                                      dragIsObject: bool, layoutItem: LayoutItem, droppingItem: LayoutItem)
    requires ItemIndex(layoutItem.children, dragItem.i) >= 0
    requires Drop(indicator, preLayoutItem, dragItem, dragIsObject, layoutItem, droppingItem).Dropped?
    ensures var r := Drop(indicator, preLayoutItem, dragItem, dragIsObject, layoutItem, droppingItem);
      layoutItem.children.Some? && r.target.children.Some? &&
      |r.target.children.value| == |layoutItem.children.value| &&
      multiset(r.target.children.value) == multiset(layoutItem.children.value) &&
      r.origin == None
  {
    var cs := layoutItem.children.value;
    var k := ItemIndex(layoutItem.children, dragItem.i);
    MoveToIsPermutation(cs, k, ReorderLanding(indicator, k, |cs|));
  }

  /**
   * The indicator's meaning for a move within the container: when it points
   * at another child, the moved child lands right before that child
   * (`Before`) or right after it (`After`), at `index - 1` / `index` for a
   * forward move and `index` / `index + 1` for a backward one, and the other
   * children keep their order.
   */
  lemma {:induction false} ReorderLandsNextToIndicatedChild<T>(s: seq<T>, itemIndex: nat, indicator: Indicator)
    requires itemIndex < |s| && 0 <= indicator.index < |s| && indicator.index != itemIndex
    ensures var p := ReorderLanding(indicator, itemIndex, |s|); var r := Reordered(s, itemIndex, indicator);
      |r| == |s| &&
      p == (if indicator.index > itemIndex then (if indicator.where == Before then indicator.index - 1 else indicator.index)
            else (if indicator.where == Before then indicator.index else indicator.index + 1)) &&
      r[p] == s[itemIndex] &&
      RemoveAt(r, p) == RemoveAt(s, itemIndex) &&
      (indicator.where == Before ==> p + 1 < |r| && r[p + 1] == s[indicator.index]) &&
      (indicator.where == After ==> 1 <= p && r[p - 1] == s[indicator.index])
  {
    var p := ReorderLanding(indicator, itemIndex, |s|);
    var rest := RemoveAt(s, itemIndex);
    var r := Reordered(s, itemIndex, indicator);
    assert r == InsertAt(rest, p, s[itemIndex]);
    assert RemoveAt(r, p) == rest;
  }

  /** The worked example: in `[x, y, z]`, dropping `y` after `z` gives `[x, z, y]`. */
  lemma ReorderExample(a: LayoutItem, x: LayoutItem, y: LayoutItem, z: LayoutItem,
                       preLayoutItem: Option<LayoutItem>, dragIsObject: bool, droppingItem: LayoutItem)
    requires x.i != y.i && !IsSelf(y, a)
    requires a.children == Some([x, y, z])
    ensures Drop(Indicator(2, After), preLayoutItem, y, dragIsObject, a, droppingItem)
            == Dropped(a.(children := Some([x, z, y])), None, y)
  {
    assert IndexOfId([x, y, z], y.i) == 1 by {
      assert [x, y, z][1..] == [y, z];
    }
    var rest := RemoveAt([x, y, z], 1);
    assert rest == [x, z];
    assert InsertAt(rest, 2, y) == [x, z, y];
  }

  /**
   * Dropping a child just before its right-hand neighbour (`{itemIndex + 1,
   * 'before'}`) is a real drop, but it leaves the order unchanged.
   */
  lemma AdjacentBeforeKeepsOrder<T>(s: seq<T>, itemIndex: nat)
    requires itemIndex < |s|
    ensures Reordered(s, itemIndex, Indicator(itemIndex + 1, Before)) == s
  {
    assert ReorderLanding(Indicator(itemIndex + 1, Before), itemIndex, |s|) == itemIndex;
    var rest := RemoveAt(s, itemIndex);
    assert rest[..itemIndex] == s[..itemIndex];
    assert rest[itemIndex..] == s[itemIndex + 1..];
    assert s == s[..itemIndex] + [s[itemIndex]] + s[itemIndex + 1..];
  }

  /**
   * A reorder with no hover first: the indicator is still `{-1, 'before'}`,
   * so the second splice gets index -1 on the shortened list and the moved
   * child lands second to last, just before the child that ends up last.
   */
  lemma NoHoverReorderGoesSecondToLast<T>(s: seq<T>, itemIndex: nat)
    requires itemIndex < |s| && 2 <= |s|
    ensures var rest := RemoveAt(s, itemIndex);
      Reordered(s, itemIndex, NoIndicator) == rest[..|s| - 2] + [s[itemIndex]] + [rest[|s| - 2]]
  {
    var rest := RemoveAt(s, itemIndex);
    assert ReorderLanding(NoIndicator, itemIndex, |s|) == |s| - 2;
    assert rest[|s| - 2..] == [rest[|s| - 2]];
  }

  /** The no-hover reorder on `[x, y, z]`: dropping `x` gives `[y, x, z]`. */
  lemma NoHoverReorderExample(a: LayoutItem, x: LayoutItem, y: LayoutItem, z: LayoutItem,
                              preLayoutItem: Option<LayoutItem>, dragIsObject: bool, droppingItem: LayoutItem)
    requires !IsSelf(x, a)
    requires a.children == Some([x, y, z])
    ensures Drop(NoIndicator, preLayoutItem, x, dragIsObject, a, droppingItem)
            == Dropped(a.(children := Some([y, x, z])), None, x)
  {
    assert IndexOfId([x, y, z], x.i) == 0;
    NoHoverReorderGoesSecondToLast([x, y, z], 0);
    assert RemoveAt([x, y, z], 0) == [y, z];
    assert Reordered([x, y, z], 0, NoIndicator) == [y, x, z];
    assert ItemIndex(a.children, x.i) == 0;
    assert Drop(NoIndicator, preLayoutItem, x, dragIsObject, a, droppingItem)
           == Dropped(a.(children := Some(Reordered([x, y, z], 0, NoIndicator))), None, x);
  }

  // --------------------------------------------------------------- inserts

  /**
   * A drop of an item from elsewhere into a container with children: the
   * list grows by exactly the placed item, which the target now owns, and
   * removing it again gives back the old children in their old order. A
   * container without children gets exactly `[placed]`, whatever the
   * indicator says.
   */
  lemma DropFromElsewhereInsertsOne(indicator: Indicator, preLayoutItem: Option<LayoutItem>, dragItem: LayoutItem,
                                    dragIsObject: bool, layoutItem: LayoutItem, droppingItem: LayoutItem)
    requires !IsSelf(dragItem, layoutItem)
    requires ItemIndex(layoutItem.children, dragItem.i) < 0
    ensures var r := Drop(indicator, preLayoutItem, dragItem, dragIsObject, layoutItem, droppingItem);
      var placed := Placed(dragItem, dragIsObject, layoutItem, droppingItem);
      r.Dropped? && r.target.children.Some? &&
      placed.parentId == Some(layoutItem.i) &&
      placed == (if dragIsObject then dragItem.(parentId := Some(layoutItem.i))
                 else droppingItem.(parentId := Some(layoutItem.i))) &&
      (CheckArray(layoutItem.children) ==>
        var p := InsertLanding(indicator, |Kids(layoutItem)|);
        p <= |Kids(layoutItem)| &&
        |r.target.children.value| == |Kids(layoutItem)| + 1 &&
        r.target.children.value[p] == placed &&
        RemoveAt(r.target.children.value, p) == Kids(layoutItem)) &&
      (!CheckArray(layoutItem.children) ==> r.target.children == Some([placed]))
  {
    if CheckArray(layoutItem.children) {
      var cs := layoutItem.children.value;
      var p := InsertLanding(indicator, |cs|);
      var r := InsertAt(cs, p, Placed(dragItem, dragIsObject, layoutItem, droppingItem));
      assert RemoveAt(r, p) == cs;
    }
  }

  /**
   * The indicator's meaning for an insert: a new child lands right before
   * (`Before`) or right after (`After`) the child the indicator points at.
   */
  lemma InsertLandsNextToIndicatedChild(cs: seq<LayoutItem>, indicator: Indicator, x: LayoutItem)
    requires 0 <= indicator.index < |cs|
    ensures var r := Inserted(Some(cs), indicator, x);
      |r| == |cs| + 1 &&
      (indicator.where == Before ==> r[indicator.index] == x && r[indicator.index + 1] == cs[indicator.index]) &&
      (indicator.where == After ==> r[indicator.index] == cs[indicator.index] && r[indicator.index + 1] == x)
  {
  }

  /**
   * With the indicator never set by a drag-over (`{-1, 'before'}`), the insert
   * index is -1 and `splice` counts it back from the end: the new child goes
   * in before the last child, not at the end of the list.
   */
  lemma NoHoverInsertGoesBeforeLastChild(cs: seq<LayoutItem>, x: LayoutItem)
    requires |cs| > 0
    ensures Inserted(Some(cs), NoIndicator, x) == cs[..|cs| - 1] + [x] + [cs[|cs| - 1]]
  {
    assert cs[|cs| - 1..] == [cs[|cs| - 1]];
  }

  // ------------------------------------------------------- origin filtering

  /** The filter keeps every child whose id differs. */
  lemma {:induction false} WithoutIdKeepsOthers(cs: seq<LayoutItem>, id: string, c: LayoutItem)
    requires c in cs && c.i != id
    ensures c in WithoutId(cs, id)
  {
    if cs[0] != c {
      WithoutIdKeepsOthers(cs[1..], id, c);
    }
  }

  /** The filter works element by element, so it keeps the order of what it keeps. */
  lemma {:induction false} WithoutIdOfConcat(a: seq<LayoutItem>, b: seq<LayoutItem>, id: string)
    ensures WithoutId(a + b, id) == WithoutId(a, id) + WithoutId(b, id)
  {
    if a == [] {
      assert a + b == b;
    } else {
      assert (a + b)[0] == a[0];
      assert (a + b)[1..] == a[1..] + b;
      WithoutIdOfConcat(a[1..], b, id);
      if a[0].i == id {
        assert WithoutId(a + b, id) == WithoutId(a[1..] + b, id);
      } else {
        assert WithoutId(a + b, id) == [a[0]] + WithoutId(a[1..] + b, id);
      }
    }
  }

  /** A list without a child of that id comes through the filter unchanged. */
  lemma {:induction false} WithoutIdNoMatch(cs: seq<LayoutItem>, id: string)
    requires forall c :: c in cs ==> c.i != id
    ensures WithoutId(cs, id) == cs
  {
    if cs != [] {
      WithoutIdNoMatch(cs[1..], id);
    }
  }

  /** The filter removes every occurrence of the id and no other id. */
  lemma {:induction false} IdsOfWithoutId(cs: seq<LayoutItem>, id: string)
    ensures multiset(Ids(WithoutId(cs, id))) == multiset(Ids(cs))[id := 0]
  {
    if cs != [] {
      IdsOfWithoutId(cs[1..], id);
      assert Ids(cs) == [cs[0].i] + Ids(cs[1..]);
      if cs[0].i != id {
        assert Ids(WithoutId(cs, id)) == [cs[0].i] + Ids(WithoutId(cs[1..], id));
      }
    }
  }

  /**
   * A drop from elsewhere, with an origin container recorded, hands back the
   * origin copy with every child of the dragged id removed and everything else
   * about the origin unchanged.
   */
  lemma OriginLosesDraggedItem(indicator: Indicator, origin: LayoutItem, dragItem: LayoutItem,
                               dragIsObject: bool, layoutItem: LayoutItem, droppingItem: LayoutItem)
    requires !IsSelf(dragItem, layoutItem)
    requires ItemIndex(layoutItem.children, dragItem.i) < 0
    requires origin.children.Some?
    ensures var r := Drop(indicator, Some(origin), dragItem, dragIsObject, layoutItem, droppingItem);
      r.Dropped? && r.origin.Some? &&
      r.origin.value == origin.(children := r.origin.value.children) &&
      r.origin.value.children.Some? &&
      (forall c :: c in r.origin.value.children.value ==> c in origin.children.value && c.i != dragItem.i) &&
      (forall c :: c in origin.children.value && c.i != dragItem.i ==> c in r.origin.value.children.value) &&
      dragItem.i !in multiset(Ids(r.origin.value.children.value))
  {
    forall c | c in origin.children.value && c.i != dragItem.i
      ensures c in WithoutId(origin.children.value, dragItem.i)
    {
      WithoutIdKeepsOthers(origin.children.value, dragItem.i, c);
    }
    IdsOfWithoutId(origin.children.value, dragItem.i);
  }

  // ----------------------------------------------------------- conservation

  lemma IdsOfConcat(a: seq<LayoutItem>, b: seq<LayoutItem>)
    ensures Ids(a + b) == Ids(a) + Ids(b)
  {
  }

  lemma {:induction false} MultisetIdsOfConcat(a: seq<LayoutItem>, b: seq<LayoutItem>)
    ensures multiset(Ids(a + b)) == multiset(Ids(a)) + multiset(Ids(b))
  {
    IdsOfConcat(a, b);
  }

  lemma IdsOfInsertAt(cs: seq<LayoutItem>, p: nat, x: LayoutItem)
    requires p <= |cs|
    ensures multiset(Ids(InsertAt(cs, p, x))) == multiset(Ids(cs)) + multiset{x.i}
  {
    var front, back := cs[..p], cs[p..];
    assert InsertAt(cs, p, x) == front + ([x] + back);
    assert cs == front + back;
    MultisetIdsOfConcat(front, [x] + back);
    MultisetIdsOfConcat([x], back);
    MultisetIdsOfConcat(front, back);
    assert Ids([x]) == [x.i];
  }

  /**
   * Moving an existing item from one container into another neither loses
   * nor duplicates an item: when the origin holds the dragged id once and the
   * target does not hold it, the ids of the two child lists together are the
   * same before and after the drop.
   */
  lemma CrossContainerDropConservesIds(indicator: Indicator, origin: LayoutItem, dragItem: LayoutItem,
                                       layoutItem: LayoutItem, droppingItem: LayoutItem)
    requires !IsSelf(dragItem, layoutItem)
    requires ItemIndex(layoutItem.children, dragItem.i) < 0
    requires origin.children.Some? && multiset(Ids(origin.children.value))[dragItem.i] == 1
    ensures var r := Drop(indicator, Some(origin), dragItem, true, layoutItem, droppingItem);
      r.Dropped? && r.target.children.Some? && r.origin.Some? && r.origin.value.children.Some? &&
      multiset(Ids(r.target.children.value)) + multiset(Ids(r.origin.value.children.value))
        == multiset(Ids(Kids(layoutItem))) + multiset(Ids(origin.children.value))
  {
    var placed := Placed(dragItem, true, layoutItem, droppingItem);
    var target := Inserted(layoutItem.children, indicator, placed);
    if CheckArray(layoutItem.children) {
      IdsOfInsertAt(Kids(layoutItem), InsertLanding(indicator, |Kids(layoutItem)|), placed);
    } else {
      assert Ids(target) == [dragItem.i];
      assert Kids(layoutItem) == [];
    }
    assert multiset(Ids(target)) == multiset(Ids(Kids(layoutItem))) + multiset{dragItem.i};
    IdsOfWithoutId(origin.children.value, dragItem.i);
    var os := multiset(Ids(origin.children.value));
    assert os[dragItem.i := 0] + multiset{dragItem.i} == os;
  }

  /**
   * Dragging `p` out of container `a` into the empty container `b`: `a`
   * loses `p`, and `b`'s children become exactly `[p]` with `p` owned by `b`.
   */
  lemma MoveIntoEmptyContainer(indicator: Indicator, a: LayoutItem, b: LayoutItem, p: LayoutItem, droppingItem: LayoutItem)
    requires a.children.Some? && p in a.children.value
    requires b.children == None || b.children == Some([])
    requires !IsSelf(p, b)
    ensures var r := Drop(indicator, Some(a), p, true, b, droppingItem);
      r.Dropped? &&
      r.target.children == Some([p.(parentId := Some(b.i))]) &&
      r.origin.Some? && r.origin.value.children.Some? &&
      (forall c :: c in r.origin.value.children.value ==> c.i != p.i) &&
      r.item == p.(parentId := Some(b.i))
  {
  }
}
