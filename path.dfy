/**
 * Response paths as a linked list of keys, each link pointing at its parent
 * (atgql/pyutils/path.py).
 */
module Paths {
  import opened Wrappers

  /** A path key: a field name or a list index. */
  datatype Key = StrKey(name: string) | IntKey(index: int)

  /** One link: the parent path, this link's key and the parent's type name, if known. */
  datatype Path = Path(prev: Option<Path>, key: Key, typename: Option<string>)

  /** `add_path`: a new link on top of `prev`. */
  function AddPath(prev: Option<Path>, key: Key, typename: Option<string>): (p: Path)
    ensures p.prev == prev && p.key == key && p.typename == typename
  {
    Path(prev, key, typename)
  }

  /** The keys of a path, root first: the meaning of `path_to_array`. */
  function Keys(path: Option<Path>): seq<Key>
    decreases path
  {
    match path
    case None => []
    case Some(p) => Keys(p.prev) + [p.key]
  }

  /** The number of links in a path. */
  function Links(path: Option<Path>): nat
    decreases path
  {
    match path
    case None => 0
    case Some(p) => Links(p.prev) + 1
  }

  /** The same path with every type name forgotten. */
  function EraseTypenames(path: Option<Path>): (r: Option<Path>)
    ensures r.Some? <==> path.Some?
    decreases path
  {
    match path
    case None => None
    case Some(p) => Some(Path(EraseTypenames(p.prev), p.key, None))
  }

  function Reversed<T>(s: seq<T>): (r: seq<T>)
    ensures |r| == |s| && forall k :: 0 <= k < |s| ==> r[k] == s[|s| - 1 - k]
  {
    if s == [] then [] else [s[|s| - 1]] + Reversed(s[..|s| - 1])
  }

  /**
   * `path_to_array`: walks from the last link to the root appending each key,
   * then reverses what it collected.
   */
  method PathToArray(path: Option<Path>) returns (flattened: seq<Key>)
    ensures flattened == Keys(path)
  {
    flattened := [];
    var curr := path;
    while curr.Some?
      invariant Keys(curr) + Reversed(flattened) == Keys(path)
      decreases curr
    {
      assert Reversed(flattened + [curr.value.key]) == [curr.value.key] + Reversed(flattened);
      flattened := flattened + [curr.value.key];
      curr := curr.value.prev;
    }
    flattened := Reversed(flattened);
  }

  lemma EmptyPath()
    ensures Keys(None) == []
  {
  }

  /** Adding a link appends its key at the end. */
  lemma AddPathAppends(prev: Option<Path>, key: Key, typename: Option<string>)
    ensures Keys(Some(AddPath(prev, key, typename))) == Keys(prev) + [key]
  {
  }

  /** One key per link, ordered from the root: the first key is the root's, the last is the newest link's. */
  lemma {:induction false} KeysPerLink(path: Option<Path>)
    ensures |Keys(path)| == Links(path)
    ensures path.Some? ==> Keys(path)[|Keys(path)| - 1] == path.value.key
    ensures path.Some? ==> Keys(path)[0] == Root(path.value).key
    decreases path
  {
    match path
    case None =>
    case Some(p) =>
      KeysPerLink(p.prev);
  }

  /** The first link of a path. */
  function Root(p: Path): (r: Path)
    ensures r.prev == None
    decreases p
  {
    match p.prev
    case None => p
    case Some(q) => Root(q)
  }

  /** Type names never reach the key list. */
  lemma {:induction false} TypenamesIgnored(path: Option<Path>)
    ensures Keys(EraseTypenames(path)) == Keys(path)
    decreases path
  {
    match path
    case None =>
    case Some(p) =>
      TypenamesIgnored(p.prev);
  }
}
