/**
 * The two JavaScript array operations the drop engine relies on, with the
 * index rules of `Array.prototype.splice` written out: a negative start
 * counts back from the end (and stops at the front), a start past the end
 * appends, and the delete count is clamped to what is left after the start.
 */
module JsArray {

  /** `s` without its element at `i`. */
  function RemoveAt<T>(s: seq<T>, i: nat): (r: seq<T>)
    requires i < |s|
    ensures |r| == |s| - 1
    ensures forall k :: 0 <= k < i ==> r[k] == s[k]
    ensures forall k :: i <= k < |r| ==> r[k] == s[k + 1]
  {
    s[..i] + s[i + 1..]
  }

  /** `s` with `x` placed so that it ends up at position `p`. */
  function InsertAt<T>(s: seq<T>, p: nat, x: T): (r: seq<T>)
    requires p <= |s|
    ensures |r| == |s| + 1 && r[p] == x
    ensures forall k :: 0 <= k < p ==> r[k] == s[k]
    ensures forall k :: p < k < |r| ==> r[k] == s[k - 1]
  {
    s[..p] + [x] + s[p..]
  }

  /** The position where `splice(start, ...)` starts working on an array of length `len`. */
  function ActualStart(len: nat, start: int): (k: nat)
    ensures k <= len
  {
    if start < 0 then (if len + start < 0 then 0 else len + start)
    else if start > len then len
    else start
  }

  /** What `splice` returns (`removed`) and what it leaves in the array (`rest`). */
  datatype Spliced<T> = Spliced(removed: seq<T>, rest: seq<T>)

  /** `s.splice(start, deleteCount, ...items)`. */
  function Splice<T>(s: seq<T>, start: int, deleteCount: int, items: seq<T>): (r: Spliced<T>)
    ensures |r.removed| <= |s| && |r.rest| == |s| - |r.removed| + |items|
    // a start past the end deletes nothing and appends
    ensures start >= |s| ==> r.removed == [] && r.rest == s + items
    // a negative start counts back from the end ...
    ensures -|s| <= start < 0 && deleteCount <= 0 ==>
              r.removed == [] && r.rest == s[..|s| + start] + items + s[|s| + start..]
    // ... and one further back than the length starts at the front
    ensures start < -|s| && deleteCount <= 0 ==> r.removed == [] && r.rest == items + s
    // a start inside the array removes at most `deleteCount` elements from there
    ensures 0 <= start < |s| && 0 <= deleteCount ==>
              |r.removed| == (if deleteCount <= |s| - start then deleteCount else |s| - start) &&
              r.removed == s[start..start + |r.removed|] &&
              r.rest == s[..start] + items + s[start + |r.removed|..]
    // in general: the clamped count is removed from the normalised start, and the items go in its place
    ensures var k := ActualStart(|s|, start);
      k + |r.removed| <= |s| &&
      |r.removed| == (if deleteCount <= 0 then 0 else if deleteCount <= |s| - k then deleteCount else |s| - k) &&
      r.removed == s[k..k + |r.removed|] &&
      r.rest == s[..k] + items + s[k + |r.removed|..]
  {
    var k := ActualStart(|s|, start);
    var d := if deleteCount < 0 then 0 else if deleteCount > |s| - k then |s| - k else deleteCount;
    Spliced(s[k..k + d], s[..k] + items + s[k + d..])
  }

  /** `splice` neither loses nor invents elements: what is removed plus what is left is the input plus the new items. */
  lemma SpliceConservesElements<T>(s: seq<T>, start: int, deleteCount: int, items: seq<T>)
    ensures var r := Splice(s, start, deleteCount, items);
      multiset(r.rest) + multiset(r.removed) == multiset(s) + multiset(items)
  {
    var k := ActualStart(|s|, start);
    var d := if deleteCount < 0 then 0 else if deleteCount > |s| - k then |s| - k else deleteCount;
    assert s == s[..k] + s[k..k + d] + s[k + d..];
  }

  /** `s.splice(i, 1)` on an index inside the array removes exactly the element at `i`. */
  lemma SpliceRemovesOne<T>(s: seq<T>, i: nat)
    requires i < |s|
    ensures Splice(s, i, 1, []).removed == [s[i]]
    ensures Splice(s, i, 1, []).rest == RemoveAt(s, i)
  {
  }

  /** `s.splice(start, 0, x)` inserts `x` at the normalised start and removes nothing. */
  lemma SpliceInsertsOne<T>(s: seq<T>, start: int, x: T)
    ensures Splice(s, start, 0, [x]).removed == []
    ensures Splice(s, start, 0, [x]).rest == InsertAt(s, ActualStart(|s|, start), x)
  {
  }
}
