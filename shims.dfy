/**
 * `Array.splice` of the JavaScript-style shims (atgql/shims.py): a new list made
 * of the part before `start`, the inserted items, and the part from
 * `start + delete_count` on, both parts cut with Python slice semantics. The
 * receiver is a value here, so it is never changed.
 */
module Shims {
  /** Where a Python slice bound `i` falls in a list of length `n`. */
  function SliceIndex(i: int, n: nat): (r: nat)
    ensures r <= n
    ensures 0 <= i <= n ==> r == i
    ensures i > n ==> r == n
    ensures i < 0 ==> r == if n + i >= 0 then n + i else 0
  {
    if i < 0 then (if n + i >= 0 then n + i else 0)
    else if i > n then n
    else i
  }

  /** `s[:i]`. */
  function Prefix<T>(s: seq<T>, i: int): seq<T> {
    s[..SliceIndex(i, |s|)]
  }

  /** `s[i:]`. */
  function Suffix<T>(s: seq<T>, i: int): seq<T> {
    s[SliceIndex(i, |s|)..]
  }

  /** `Array.splice(s, start, delete_count, *items)`, as written. */
  function Splice<T>(s: seq<T>, start: int, deleteCount: int := 0, items: seq<T> := []): (r: seq<T>)
    ensures |r| == SliceIndex(start, |s|) + |items| + (|s| - SliceIndex(start + deleteCount, |s|))
    ensures r[..SliceIndex(start, |s|)] == s[..SliceIndex(start, |s|)]
  {
    Prefix(s, start) + items + Suffix(s, start + deleteCount)
  }

  /** Within bounds it is the familiar splice: the prefix, the items, and what follows the deleted run. */
  lemma SpliceInRange<T>(s: seq<T>, start: int, deleteCount: int, items: seq<T>)
    requires 0 <= start <= |s| && deleteCount >= 0
    ensures var end := if start + deleteCount <= |s| then start + deleteCount else |s|;
      Splice(s, start, deleteCount, items) == s[..start] + items + s[end..]
  {
  }

  /** Given only a start, the result has the same elements as the list. */
  lemma SpliceStartOnly<T>(s: seq<T>, start: int)
    ensures Splice(s, start) == s
  {
    var k := SliceIndex(start, |s|);
    assert s[..k] + [] + s[k..] == s;
  }

  /** A splice inside the list is undone by splicing the removed run back in place of the items. */
  lemma SpliceUndo<T>(s: seq<T>, start: int, deleteCount: int, items: seq<T>)
    requires 0 <= start <= start + deleteCount <= |s|
    ensures Splice(Splice(s, start, deleteCount, items), start, |items|, s[start..start + deleteCount]) == s
  {
    var t := Splice(s, start, deleteCount, items);
    assert t == s[..start] + items + s[start + deleteCount..];
    assert t[..start] == s[..start];
    assert t[start + |items|..] == s[start + deleteCount..];
    assert s[..start] + s[start..start + deleteCount] + s[start + deleteCount..] == s;
  }

  /**
   * The end bound `start + delete_count` is cut as a Python index on its own, so a
   * negative start with a delete count, or a negative delete count, does not
   * delete what a JavaScript splice deletes.
   */
  lemma SpliceEndNotNormalized()
    ensures Splice([1, 2, 3, 4], -1, 1) == [1, 2, 3, 1, 2, 3, 4]
    ensures Splice([1, 2, 3], 0, -1) == [3]
  {
    assert Splice([1, 2, 3, 4], -1, 1) == [1, 2, 3, 4][..3] + [] + [1, 2, 3, 4][0..];
    assert Splice([1, 2, 3], 0, -1) == [1, 2, 3][..0] + [] + [1, 2, 3][2..];
  }

  /**
   * The number of elements a JavaScript splice removes: the delete count clamped
   * to `[0, len - start]`, measured from the normalized start.
   */
  function Removed(n: nat, start: int, deleteCount: int): (d: nat)
    ensures SliceIndex(start, n) + d <= n
    ensures deleteCount <= 0 ==> d == 0
    ensures 0 <= deleteCount <= n - SliceIndex(start, n) ==> d == deleteCount
  {
    var first := SliceIndex(start, n);
    if deleteCount < 0 then 0 else if deleteCount > n - first then n - first else deleteCount
  }

  /**
   * Splice with the end bound taken from the normalized start, as JavaScript's
   * `Array.prototype.splice` does; it removes one run of `Removed` elements at the
   * normalized start and puts the items there.
   */
  function SpliceNormalized<T>(s: seq<T>, start: int, deleteCount: int := 0, items: seq<T> := []): (r: seq<T>)
    ensures var first := SliceIndex(start, |s|);
      var d := Removed(|s|, start, deleteCount);
      |r| == |s| - d + |items|
      && r[..first] == s[..first]
      && r[first..first + |items|] == items
      && r[first + |items|..] == s[first + d..]
  {
    var first := SliceIndex(start, |s|);
    s[..first] + items + s[first + Removed(|s|, start, deleteCount)..]
  }

  /** The normalized splice agrees with the source wherever the source's end bound is already in range. */
  lemma SpliceNormalizedAgrees<T>(s: seq<T>, start: int, deleteCount: int, items: seq<T>)
    requires 0 <= start <= |s| && deleteCount >= 0
    ensures SpliceNormalized(s, start, deleteCount, items) == Splice(s, start, deleteCount, items)
  {
  }

  /** It is undone by splicing the removed run back in place of the items. */
  lemma SpliceNormalizedUndo<T>(s: seq<T>, start: int, deleteCount: int, items: seq<T>)
    ensures var first := SliceIndex(start, |s|);
      var d := Removed(|s|, start, deleteCount);
      SpliceNormalized(SpliceNormalized(s, start, deleteCount, items), first, |items|, s[first..first + d]) == s
  {
    var first := SliceIndex(start, |s|);
    var d := Removed(|s|, start, deleteCount);
    var t := SpliceNormalized(s, start, deleteCount, items);
    assert s[..first] + s[first..first + d] + s[first + d..] == s;
  }

  /** The two inputs of the source's behaviour above delete what JavaScript deletes. */
  lemma SpliceNormalizedExamples()
    ensures SpliceNormalized([1, 2, 3, 4], -1, 1) == [1, 2, 3]
    ensures SpliceNormalized([1, 2, 3], 0, -1) == [1, 2, 3]
  {
    assert [1, 2, 3, 4][..3] + [] + [1, 2, 3, 4][4..] == [1, 2, 3];
    assert [1, 2, 3][..0] + [] + [1, 2, 3][0..] == [1, 2, 3];
  }
}
