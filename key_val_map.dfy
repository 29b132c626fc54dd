/**
 * A dictionary keyed by one function of each item and holding another function
 * of it, where a later item overwrites an earlier one with the same key
 * (atgql/pyutils/key_val_map.py).
 */
module KeyValMaps {
  import KeyMaps

  /** The dictionary after inserting the items in order. */
  function KeyValMapOf<T, V>(items: seq<T>, keyFn: T -> string, valFn: T -> V): map<string, V> {
    if items == [] then map[]
    else
      var last := items[|items| - 1];
      KeyValMapOf(items[..|items| - 1], keyFn, valFn)[keyFn(last) := valFn(last)]
  }

  /**
   * `key_val_map`: one pass over the items, each value stored under its key. The
   * dictionary is a map together with its keys in insertion order.
   */
  method KeyValMap<T, V>(items: seq<T>, keyFn: T -> string, valFn: T -> V) returns (result: map<string, V>, order: seq<string>)
    ensures result == KeyValMapOf(items, keyFn, valFn)
    ensures order == KeyMaps.KeyOrder(items, keyFn)
  {
    result := map[];
    order := [];
    for i := 0 to |items|
      invariant result == KeyValMapOf(items[..i], keyFn, valFn)
      invariant order == KeyMaps.KeyOrder(items[..i], keyFn)
    {
      assert items[..i + 1][..i] == items[..i];
      SameKeys(items[..i], keyFn, valFn);
      KeyMaps.KeyOrderMembers(items[..i], keyFn);
      var key := keyFn(items[i]);
      if key !in result {
        order := order + [key];
      }
      result := result[key := valFn(items[i])];
    }
    assert items[..|items|] == items;
  }

  lemma EmptyItems<T, V>(keyFn: T -> string, valFn: T -> V)
    ensures KeyValMapOf([], keyFn, valFn) == map[]
  {
  }

  /** The keys are those of `key_map` with the same key function. */
  lemma {:induction false} KeyValMapKeys<T, V>(items: seq<T>, keyFn: T -> string, valFn: T -> V)
    ensures KeyValMapOf(items, keyFn, valFn).Keys == KeyMaps.KeysOf(items, keyFn)
  {
    SameKeys(items, keyFn, valFn);
    KeyMaps.KeyMapKeys(items, keyFn);
  }

  lemma {:induction false} SameKeys<T, V>(items: seq<T>, keyFn: T -> string, valFn: T -> V)
    ensures KeyValMapOf(items, keyFn, valFn).Keys == KeyMaps.KeyMapOf(items, keyFn).Keys
  {
    if items != [] {
      SameKeys(items[..|items| - 1], keyFn, valFn);
    }
  }

  /** Each key holds the value of the last item that produced it. */
  lemma {:induction false} LastValueWins<T, V>(items: seq<T>, keyFn: T -> string, valFn: T -> V, i: int)
    requires 0 <= i < |items| && KeyMaps.LastWithKey(items, keyFn, i)
    ensures keyFn(items[i]) in KeyValMapOf(items, keyFn, valFn)
    ensures KeyValMapOf(items, keyFn, valFn)[keyFn(items[i])] == valFn(items[i])
  {
    if i < |items| - 1 {
      var front := items[..|items| - 1];
      assert front[i] == items[i];
      assert KeyMaps.LastWithKey(front, keyFn, i) by {
        forall j | i < j < |front|
          ensures keyFn(front[j]) != keyFn(front[i])
        {
          assert front[j] == items[j];
        }
      }
      LastValueWins(front, keyFn, valFn, i);
      assert keyFn(items[|items| - 1]) != keyFn(items[i]);
    }
  }

  /** With the identity as value function it is `key_map`. */
  lemma {:induction false} IdentityIsKeyMap<T>(items: seq<T>, keyFn: T -> string)
    ensures KeyValMapOf(items, keyFn, x => x) == KeyMaps.KeyMapOf(items, keyFn)
  {
    if items != [] {
      IdentityIsKeyMap(items[..|items| - 1], keyFn);
    }
  }
}
