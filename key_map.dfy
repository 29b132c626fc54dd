/**
 * A dictionary keyed by a function of each item, where a later item overwrites
 * an earlier one with the same key (atgql/pyutils/key_map.py).
 */
module KeyMaps {
  /** The keys the items produce. */
  ghost function KeysOf<T>(items: seq<T>, keyFn: T -> string): set<string> {
    set k | 0 <= k < |items| :: keyFn(items[k])
  }

  /** No two items produce the same key. */
  ghost predicate Injective<T>(items: seq<T>, keyFn: T -> string) {
    forall i, j :: 0 <= i < j < |items| ==> keyFn(items[i]) != keyFn(items[j])
  }

  /** Item `i` is the last one producing its key. */
  ghost predicate LastWithKey<T>(items: seq<T>, keyFn: T -> string, i: int)
    requires 0 <= i < |items|
  {
    forall j :: i < j < |items| ==> keyFn(items[j]) != keyFn(items[i])
  }

  /** The dictionary after inserting the items in order. */
  function KeyMapOf<T>(items: seq<T>, keyFn: T -> string): map<string, T> {
    if items == [] then map[]
    else
      var last := items[|items| - 1];
      KeyMapOf(items[..|items| - 1], keyFn)[keyFn(last) := last]
  }

  /**
   * The dictionary's keys in iteration order: each key where an item first
   * produced it; a later item with the same key leaves the order alone.
   */
  function KeyOrder<T>(items: seq<T>, keyFn: T -> string): seq<string> {
    if items == [] then []
    else
      var front := KeyOrder(items[..|items| - 1], keyFn);
      var key := keyFn(items[|items| - 1]);
      if key in front then front else front + [key]
  }

  /** No key is listed twice. */
  ghost predicate NoRepeats(keys: seq<string>) {
    forall i, j :: 0 <= i < j < |keys| ==> keys[i] != keys[j]
  }

  /**
   * `key_map`: one pass over the items, each stored under its key. The dictionary
   * is a map together with its keys in insertion order.
   */
  method KeyMap<T>(items: seq<T>, keyFn: T -> string) returns (result: map<string, T>, order: seq<string>)
    ensures result == KeyMapOf(items, keyFn)
    ensures order == KeyOrder(items, keyFn)
  {
    result := map[];
    order := [];
    for i := 0 to |items|
      invariant result == KeyMapOf(items[..i], keyFn)
      invariant order == KeyOrder(items[..i], keyFn)
    {
      assert items[..i + 1][..i] == items[..i];
      KeyOrderMembers(items[..i], keyFn);
      var key := keyFn(items[i]);
      if key !in result {
        order := order + [key];
      }
      result := result[key := items[i]];
    }
    assert items[..|items|] == items;
  }

  /** A key is listed exactly when the dictionary holds it. */
  lemma {:induction false} KeyOrderMembers<T>(items: seq<T>, keyFn: T -> string)
    ensures forall key :: key in KeyOrder(items, keyFn) <==> key in KeyMapOf(items, keyFn)
  {
    if items != [] {
      KeyOrderMembers(items[..|items| - 1], keyFn);
    }
  }

  /** The order lists each key once. */
  lemma {:induction false} KeyOrderNoRepeats<T>(items: seq<T>, keyFn: T -> string)
    ensures NoRepeats(KeyOrder(items, keyFn))
  {
    if items != [] {
      KeyOrderNoRepeats(items[..|items| - 1], keyFn);
    }
  }

  /**
   * Keys inserted earlier come first: the order after the first `i` items is a
   * prefix of the final order.
   */
  lemma {:induction false} KeyOrderPrefix<T>(items: seq<T>, keyFn: T -> string, i: nat)
    requires i <= |items|
    ensures KeyOrder(items[..i], keyFn) <= KeyOrder(items, keyFn)
    decreases |items| - i
  {
    if i < |items| {
      KeyOrderPrefix(items, keyFn, i + 1);
      assert items[..i + 1][..i] == items[..i];
    } else {
      assert items[..i] == items;
    }
  }

  lemma EmptyArray<T>(keyFn: T -> string)
    ensures KeyMapOf([], keyFn) == map[]
  {
  }

  /** The keys are exactly the keys the items produce. */
  lemma {:induction false} KeyMapKeys<T>(items: seq<T>, keyFn: T -> string)
    ensures KeyMapOf(items, keyFn).Keys == KeysOf(items, keyFn)
  {
    if items != [] {
      var front := items[..|items| - 1];
      KeyMapKeys(front, keyFn);
      assert KeysOf(items, keyFn) == KeysOf(front, keyFn) + {keyFn(items[|items| - 1])} by {
        forall key | key in KeysOf(items, keyFn)
          ensures key in KeysOf(front, keyFn) + {keyFn(items[|items| - 1])}
        {
          var k :| 0 <= k < |items| && keyFn(items[k]) == key;
          if k < |items| - 1 {
            assert front[k] == items[k];
          }
        }
        forall key | key in KeysOf(front, keyFn)
          ensures key in KeysOf(items, keyFn)
        {
          var k :| 0 <= k < |front| && keyFn(front[k]) == key;
          assert items[k] == front[k];
        }
      }
    }
  }

  /** Each key holds the last item that produced it. */
  lemma {:induction false} LastItemWins<T>(items: seq<T>, keyFn: T -> string, i: int)
    requires 0 <= i < |items| && LastWithKey(items, keyFn, i)
    ensures keyFn(items[i]) in KeyMapOf(items, keyFn)
    ensures KeyMapOf(items, keyFn)[keyFn(items[i])] == items[i]
  {
    if i < |items| - 1 {
      var front := items[..|items| - 1];
      assert front[i] == items[i];
      assert LastWithKey(front, keyFn, i) by {
        forall j | i < j < |front|
          ensures keyFn(front[j]) != keyFn(front[i])
        {
          assert front[j] == items[j];
        }
      }
      LastItemWins(front, keyFn, i);
      assert keyFn(items[|items| - 1]) != keyFn(items[i]);
    }
  }

  /** At most one entry per item. */
  lemma {:induction false} KeyMapSize<T>(items: seq<T>, keyFn: T -> string)
    ensures |KeyMapOf(items, keyFn)| <= |items|
  {
    if items != [] {
      KeyMapSize(items[..|items| - 1], keyFn);
    }
  }

  /** One entry per item exactly when no two items share a key. */
  lemma {:induction false} KeyMapSizeInjective<T>(items: seq<T>, keyFn: T -> string)
    ensures |KeyMapOf(items, keyFn)| == |items| <==> Injective(items, keyFn)
  {
    if items != [] {
      var front := items[..|items| - 1];
      var last := items[|items| - 1];
      KeyMapSizeInjective(front, keyFn);
      KeyMapSize(front, keyFn);
      KeyMapKeys(front, keyFn);
      var m := KeyMapOf(front, keyFn);
      if Injective(items, keyFn) {
        assert Injective(front, keyFn) by {
          forall i, j | 0 <= i < j < |front|
            ensures keyFn(front[i]) != keyFn(front[j])
          {
            assert front[i] == items[i] && front[j] == items[j];
          }
        }
      }
      if |KeyMapOf(items, keyFn)| == |items| {
        assert keyFn(last) !in m;
        forall i, j | 0 <= i < j < |items|
          ensures keyFn(items[i]) != keyFn(items[j])
        {
          assert items[i] == front[i];
          if j < |items| - 1 {
            assert items[j] == front[j];
          } else {
            assert keyFn(front[i]) in KeysOf(front, keyFn);
          }
        }
      }
    }
  }
}
