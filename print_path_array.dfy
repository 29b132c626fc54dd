/**
 * Rendering a key path as text, `.name` for a field and `[3]` for a list index
 * (atgql/pyutils/print_path_array.py).
 */
module PrintPath {
  import opened Text
  import opened Paths
  import opened Wrappers

  /** The text of one key. */
  function KeyText(key: Key): (t: string)
    ensures |t| >= 1
  {
    match key
    case IntKey(i) => "[" + DecimalString(i) + "]"
    case StrKey(s) => "." + s
  }

  /** `map(lambda key: ..., path)`. */
  function KeyTexts(path: seq<Key>): (r: seq<string>)
    ensures |r| == |path| && forall k :: 0 <= k < |path| ==> r[k] == KeyText(path[k])
  {
    if path == [] then [] else [KeyText(path[0])] + KeyTexts(path[1..])
  }

  /** `print_path_array`: the key texts joined with nothing between them. */
  function PrintPathArray(path: seq<Key>): string {
    Join(KeyTexts(path), "")
  }

  lemma PrintEmpty()
    ensures PrintPathArray([]) == ""
  {
  }

  /** An index key prints as '[' + its decimal + ']', a field name as '.' + the name. */
  lemma PrintOneKey(key: Key)
    ensures key.IntKey? ==> PrintPathArray([key]) == "[" + DecimalString(key.index) + "]"
    ensures key.StrKey? ==> PrintPathArray([key]) == "." + key.name
  {
    assert KeyTexts([key]) == [KeyText(key)];
  }

  /** Printing distributes over concatenation of paths. */
  lemma PrintAppend(p: seq<Key>, q: seq<Key>)
    ensures PrintPathArray(p + q) == PrintPathArray(p) + PrintPathArray(q)
  {
    assert KeyTexts(p + q) == KeyTexts(p) + KeyTexts(q);
    JoinEmptySepAppend(KeyTexts(p), KeyTexts(q));
  }

  /** Every key contributes at least one character. */
  lemma {:induction false} PrintLength(path: seq<Key>)
    ensures |PrintPathArray(path)| >= |path|
  {
    if path != [] {
      PrintLength(path[1..]);
      PrintAppend([path[0]], path[1..]);
      assert [path[0]] + path[1..] == path;
      assert KeyTexts([path[0]]) == [KeyText(path[0])];
    }
  }

  /** Adding a link to a response path appends that key's text to the printed path. */
  lemma PrintAddPath(prev: Option<Path>, key: Key, typename: Option<string>)
    ensures PrintPathArray(Keys(Some(AddPath(prev, key, typename)))) == PrintPathArray(Keys(prev)) + KeyText(key)
  {
    PrintAppend(Keys(prev), [key]);
    assert KeyTexts([key]) == [KeyText(key)];
  }
}
