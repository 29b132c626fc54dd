/**
 * The fixed-size truncation used when values are printed in error messages
 * (`trunc_str` and `trunc_list` of atgql/pyutils/inspect.py).
 */
module Inspect {
  const MaxStrSize: nat := 240
  const MaxArrayLength: nat := 10

  function Max(x: int, y: int): int {
    if x >= y then x else y
  }

  /** Characters kept from the front of a truncated string: `max(0, (240 - 3) // 2)`. */
  const StrHead: nat := Max(0, (MaxStrSize - 3) / 2)
  /** Characters kept from the back of a truncated string: `max(0, 240 - 3 - i)`. */
  const StrTail: nat := Max(0, MaxStrSize - 3 - StrHead)

  /** `trunc_str`: strings longer than 240 characters keep their head and tail around '...'. */
  function TruncStr(s: string): (r: string)
    ensures |s| <= MaxStrSize ==> r == s
    ensures |s| > MaxStrSize ==>
      |r| == MaxStrSize && r[..118] == s[..118] && r[118..121] == "..." && r[121..] == s[|s| - 119..]
  {
    if |s| > MaxStrSize then
      s[..StrHead] + "..." + s[|s| - StrTail..]
    else
      s
  }

  /** A truncated string never exceeds the bound. */
  lemma TruncStrBound(s: string)
    ensures |TruncStr(s)| <= MaxStrSize
  {
  }

  /** Truncating twice is truncating once. */
  lemma TruncStrIdempotent(s: string)
    ensures TruncStr(TruncStr(s)) == TruncStr(s)
  {
  }

  /** A list element, or the `Ellipsis` marker that stands for the dropped middle. */
  datatype Item<T> = Elem(value: T) | Ellipsis

  /** `trunc_list`: lists longer than 10 keep their first 5 items, an Ellipsis and their last 4. */
  function TruncList<T>(s: seq<Item<T>>): (r: seq<Item<T>>)
    ensures |s| <= MaxArrayLength ==> r == s
    ensures |s| > MaxArrayLength ==>
      |r| == MaxArrayLength && r[..5] == s[..5] && r[5] == Ellipsis && r[6..] == s[|s| - 4..]
  {
    if |s| > MaxArrayLength then
      var i := MaxArrayLength / 2;
      var j := i - 1;
      s[..i] + [Ellipsis] + s[|s| - j..]
    else
      s
  }

  lemma TruncListBound<T>(s: seq<Item<T>>)
    ensures |TruncList(s)| <= MaxArrayLength
  {
  }

  lemma TruncListIdempotent<T>(s: seq<Item<T>>)
    ensures TruncList(TruncList(s)) == TruncList(s)
  {
  }
}
