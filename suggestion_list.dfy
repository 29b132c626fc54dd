/**
 * Suggestion ranking (atgql/pyutils/suggestion_list.py): a lexical distance
 * (a restricted Damerau-Levenshtein distance, also called optimal string
 * alignment, in which a change of letter case alone costs one edit) and the
 * list of options close enough to an input, closest first.
 */
module Suggestions {
  import opened Wrappers
  import opened Text
  import opened NaturalSort

  /** `string_to_array`: the code points of a string. */
  function StringToArray(s: string): (r: seq<int>)
    ensures |r| == |s|
    ensures forall k :: 0 <= k < |s| ==> r[k] == s[k] as int
  {
    seq(|s|, k requires 0 <= k < |s| => s[k] as int)
  }

  /** Two strings have the same code points exactly when they are equal. */
  lemma StringToArrayInjective(s: string, t: string)
    ensures StringToArray(s) == StringToArray(t) <==> s == t
  {
    if StringToArray(s) == StringToArray(t) {
      assert forall k :: 0 <= k < |s| ==> s[k] as int == t[k] as int;
    }
  }

  function Min(x: int, y: int): int {
    if x <= y then x else y
  }

  /**
   * The optimal string alignment distance between `a[..i]` and `b[..j]`:
   * the least number of insertions, deletions, substitutions and swaps of
   * two adjacent elements, each used on a substring at most once. This is
   * the recurrence the source evaluates row by row.
   */
  function Dist(a: seq<int>, b: seq<int>, i: nat, j: nat): nat
    requires i <= |a| && j <= |b|
    decreases i + j
  {
    if i == 0 then j
    else if j == 0 then i
    else
      var cost := if a[i - 1] == b[j - 1] then 0 else 1;
      var best := Min(Min(Dist(a, b, i - 1, j) + 1, Dist(a, b, i, j - 1) + 1), Dist(a, b, i - 1, j - 1) + cost);
      if i > 1 && j > 1 && a[i - 1] == b[j - 2] && a[i - 2] == b[j - 1] then
        Min(best, Dist(a, b, i - 2, j - 2) + 1)
      else
        best
  }

  /** A distance of zero is reached only between equal prefixes. */
  lemma {:induction false} DistZero(a: seq<int>, b: seq<int>, i: nat, j: nat)
    requires i <= |a| && j <= |b| && Dist(a, b, i, j) == 0
    ensures i == j && a[..i] == b[..j]
    decreases i + j
  {
    if i > 0 && j > 0 {
      assert Dist(a, b, i - 1, j - 1) == 0 && a[i - 1] == b[j - 1];
      DistZero(a, b, i - 1, j - 1);
      assert a[..i] == a[..i - 1] + [a[i - 1]];
      assert b[..j] == b[..j - 1] + [b[j - 1]];
    }
  }

  /** Whole arrays at distance zero are equal. */
  lemma DistZeroEqual(a: seq<int>, b: seq<int>)
    ensures Dist(a, b, |a|, |b|) == 0 ==> a == b
  {
    if Dist(a, b, |a|, |b|) == 0 {
      DistZero(a, b, |a|, |b|);
      assert a[..|a|] == a && b[..|b|] == b;
    }
  }

  /** Equal prefixes are at distance zero. */
  lemma {:induction false} DistEqualPrefix(a: seq<int>, b: seq<int>, i: nat)
    requires i <= |a| && i <= |b| && a[..i] == b[..i]
    ensures Dist(a, b, i, i) == 0
  {
    if i > 0 {
      assert a[..i - 1] == a[..i][..i - 1] && b[..i - 1] == b[..i][..i - 1];
      assert a[i - 1] == a[..i][i - 1] && b[i - 1] == b[..i][i - 1];
      DistEqualPrefix(a, b, i - 1);
    }
  }

  /** Along the diagonal, equal elements add nothing. */
  lemma {:induction false} DistDiagonalTail(a: seq<int>, b: seq<int>, i: nat, n: nat)
    requires i <= n <= |a| && n <= |b|
    requires forall m :: i <= m < n ==> a[m] == b[m]
    ensures Dist(a, b, n, n) <= Dist(a, b, i, i)
    decreases n - i
  {
    if i < n {
      DistDiagonalTail(a, b, i + 1, n);
    }
  }

  /** Swapping two adjacent, different elements is exactly one edit. */
  lemma {:induction false} DistTransposition(a: seq<int>, b: seq<int>, k: nat)
    requires |a| == |b| && k + 1 < |a|
    requires a[k] == b[k + 1] && a[k + 1] == b[k] && a[k] != a[k + 1]
    requires forall m :: 0 <= m < |a| && m != k && m != k + 1 ==> a[m] == b[m]
    ensures Dist(a, b, |a|, |b|) == 1
  {
    assert a[..k] == b[..k];
    DistEqualPrefix(a, b, k);
    assert Dist(a, b, k + 2, k + 2) <= 1;
    DistDiagonalTail(a, b, k + 2, |a|);
    DistZeroEqual(a, b);
  }

  /** One cell of the table from its upper, left, diagonal and double-diagonal neighbours. */
  lemma CellStep(a: seq<int>, b: seq<int>, i: nat, j: nat, up: int, left: int, diagonal: int, twoDiagonal: int)
    requires 1 <= i <= |a| && 1 <= j <= |b|
    requires up == Dist(a, b, i - 1, j) && left == Dist(a, b, i, j - 1) && diagonal == Dist(a, b, i - 1, j - 1)
    requires i > 1 && j > 1 ==> twoDiagonal == Dist(a, b, i - 2, j - 2)
    ensures var cost := if a[i - 1] == b[j - 1] then 0 else 1;
      var best := Min(Min(up + 1, left + 1), diagonal + cost);
      Dist(a, b, i, j) ==
        if i > 1 && j > 1 && a[i - 1] == b[j - 2] && a[i - 2] == b[j - 1] then Min(best, twoDiagonal + 1) else best
  {
  }

  /**
   * If every cell of row `i` is at least `m`, so is every cell of row `i + 1`:
   * the row minimum never decreases.
   */
  lemma {:induction false} NextRowBound(a: seq<int>, b: seq<int>, i: nat, k: nat, m: int)
    requires i < |a| && k <= |b|
    requires forall c :: 0 <= c <= |b| ==> Dist(a, b, i, c) >= m
    ensures Dist(a, b, i + 1, k) >= m
    decreases k
  {
    if k > 0 {
      NextRowBound(a, b, i, k - 1, m);
      if i >= 1 && k > 1 {
        assert Dist(a, b, i, k - 1) <= Dist(a, b, i - 1, k - 2) + 1;
      }
    }
  }

  /**
   * The early exit is sound: once every cell of a row exceeds the threshold,
   * so does the final distance.
   */
  lemma {:induction false} EarlyExitSound(a: seq<int>, b: seq<int>, i: nat, threshold: int)
    requires i <= |a|
    requires forall c :: 0 <= c <= |b| ==> Dist(a, b, i, c) > threshold
    ensures Dist(a, b, |a|, |b|) > threshold
    decreases |a| - i
  {
    if i < |a| {
      var next := i + 1;
      forall c | 0 <= c <= |b|
        ensures Dist(a, b, next, c) > threshold
      {
        NextRowBound(a, b, i, c, threshold + 1);
      }
      EarlyExitSound(a, b, i + 1, threshold);
    }
  }

  /** The source's `floor(len(input_) * 0.4) + 1`. */
  function Threshold(input: string): nat {
    (2 * |input|) / 5 + 1
  }

  /** Longer array first, as `measure` arranges them; the second never exceeds the input's length. */
  function Ordered(option: seq<int>, input: seq<int>): (p: (seq<int>, seq<int>))
    ensures |p.1| <= |p.0| && |p.1| <= |input|
    ensures {p.0, p.1} == {option, input}
  {
    if |option| < |input| then (input, option) else (option, input)
  }

  /** Strings that differ even ignoring case are at a positive distance. */
  lemma LoweredDistancePositive(input: string, option: string)
    requires ToLower(input) != ToLower(option)
    ensures var p := Ordered(StringToArray(ToLower(option)), StringToArray(ToLower(input)));
      Dist(p.0, p.1, |p.0|, |p.1|) > 0
  {
    var x, y := ToLower(option), ToLower(input);
    var p := Ordered(StringToArray(x), StringToArray(y));
    StringToArrayInjective(x, y);
    DistZeroEqual(p.0, p.1);
  }

  /**
   * What `LexicalDistance(input).measure(option, threshold)` returns, stated
   * without the early exit.
   */
  function MeasureSpec(input: string, option: string, threshold: int): (d: Option<nat>)
    ensures d == Some(0) <==> input == option
    ensures input != option && ToLower(input) == ToLower(option) ==> d == Some(1)
    ensures threshold >= 1 && d.Some? ==> d.value <= threshold
  {
    if input == option then Some(0)
    else if ToLower(input) == ToLower(option) then Some(1)
    else
      var p := Ordered(StringToArray(ToLower(option)), StringToArray(ToLower(input)));
      var d := Dist(p.0, p.1, |p.0|, |p.1|);
      LoweredDistancePositive(input, option);
      if d <= threshold then Some(d) else None
  }

  /** `u + [x, y] + v` and `u + [y, x] + v` differ only at the two swapped positions. */
  lemma SwappedLetters(u: string, x: char, y: char, v: string)
    ensures var input, option := u + [x, y] + v, u + [y, x] + v;
      && |input| == |option| == |u| + 2 + |v|
      && input[|u|] == option[|u| + 1] == x && input[|u| + 1] == option[|u|] == y
      && forall m :: 0 <= m < |input| && m != |u| && m != |u| + 1 ==> input[m] == option[m]
  {
    var input, option := u + [x, y] + v, u + [y, x] + v;
    forall m | 0 <= m < |input| && m != |u| && m != |u| + 1
      ensures input[m] == option[m]
    {
      if m < |u| {
        assert option[m] == u[m] == input[m];
      } else {
        assert option[m] == v[m - |u| - 2] == input[m];
      }
    }
  }

  /** The lower-cased code points of the two strings are one transposition apart. */
  lemma TransposedDistance(u: string, x: char, y: char, v: string)
    requires LowerChar(x) != LowerChar(y)
    ensures var a, b := StringToArray(ToLower(u + [y, x] + v)), StringToArray(ToLower(u + [x, y] + v));
      |a| == |b| && Dist(a, b, |a|, |b|) == 1
  {
    var input, option := u + [x, y] + v, u + [y, x] + v;
    var k := |u|;
    SwappedLetters(u, x, y, v);
    var lowIn, lowOpt := ToLower(input), ToLower(option);
    var a, b := StringToArray(lowOpt), StringToArray(lowIn);
    assert a[k] == b[k + 1] && a[k + 1] == b[k] && a[k] != a[k + 1];
    forall m | 0 <= m < |a| && m != k && m != k + 1
      ensures a[m] == b[m]
    {
      assert lowOpt[m] == LowerChar(option[m]) == LowerChar(input[m]) == lowIn[m];
    }
    DistTransposition(a, b, k);
  }

  /** Swapping two adjacent letters that differ even ignoring case costs one edit ('agr' and 'arg'). */
  lemma {:induction false} TranspositionCostsOne(u: string, x: char, y: char, v: string, threshold: int)
    requires LowerChar(x) != LowerChar(y) && threshold >= 1
    ensures MeasureSpec(u + [x, y] + v, u + [y, x] + v, threshold) == Some(1)
  {
    var input, option := u + [x, y] + v, u + [y, x] + v;
    SwappedLetters(u, x, y, v);
    TransposedDistance(u, x, y, v);
    assert ToLower(input)[|u|] != ToLower(option)[|u|];
    assert input != option && ToLower(input) != ToLower(option);
    var a, b := StringToArray(ToLower(option)), StringToArray(ToLower(input));
    assert Ordered(a, b) == (a, b);
    assert Dist(a, b, |a|, |b|) == 1;
  }

  /** The test case 'agr' / 'arg' of the source's suite. */
  lemma TranspositionExample()
    ensures MeasureSpec("agr", "arg", Threshold("agr")) == Some(1)
  {
    TranspositionCostsOne("a", 'g', 'r', "", Threshold("agr"));
    assert "a" + ['g', 'r'] + "" == "agr" && "a" + ['r', 'g'] + "" == "arg";
  }

  /** The three rows in use rotate: row `i` never reuses the storage of rows `i - 1` or `i - 2`. */
  lemma RowIndices(i: int)
    ensures i % 3 != (i - 1) % 3 && i % 3 != (i - 2) % 3
    ensures ((i + 1) - 1) % 3 == i % 3 && ((i + 1) - 2) % 3 == (i - 1) % 3
  {
  }

  /**
   * `LexicalDistance`: the lower-cased input, its code points and three
   * reusable rows of `len(input) + 1` cells, rewritten by every `measure`.
   */
  class LexicalDistance {
    const input: string
    const inputLowerCase: string
    const inputArray: seq<int>
    const rows: array2<int>

    ghost predicate Valid() {
      && inputLowerCase == ToLower(input)
      && inputArray == StringToArray(inputLowerCase)
      && rows.Length0 == 3
      && rows.Length1 == |input| + 1
    }

    constructor (input: string)
      ensures Valid() && this.input == input && fresh(rows)
      ensures forall r, c :: 0 <= r < 3 && 0 <= c <= |input| ==> rows[r, c] == 0
    {
      this.input := input;
      inputLowerCase := ToLower(input);
      inputArray := StringToArray(ToLower(input));
      rows := new int[3, |input| + 1]((_, _) => 0);
    }

    /** Row `r` holds the distances from the first `i` elements of `a` to each prefix of `b`. */
    ghost predicate RowIs(r: nat, a: seq<int>, b: seq<int>, i: nat)
      reads rows
    {
      && r < 3 == rows.Length0 && |b| < rows.Length1 && i <= |a|
      && forall c {:trigger rows[r, c]} :: 0 <= c <= |b| ==> rows[r, c] == Dist(a, b, i, c)
    }

    /** One cell of the inner loop of `measure`: delete, insert, substitute or transpose. */
    method ComputeCell(a: seq<int>, b: seq<int>, i: nat, j: nat, up: nat, current: nat, twoUp: nat) returns (cell: int)
      requires 1 <= i <= |a| && 1 <= j <= |b| && current < 3
      requires RowIs(up, a, b, i - 1)
      requires i >= 2 ==> RowIs(twoUp, a, b, i - 2)
      requires rows[current, j - 1] == Dist(a, b, i, j - 1)
      ensures cell == Dist(a, b, i, j)
    {
      var cost := if a[i - 1] == b[j - 1] then 0 else 1;
      cell := Min(Min(rows[up, j] + 1, rows[current, j - 1] + 1), rows[up, j - 1] + cost);
      if i > 1 && j > 1 && a[i - 1] == b[j - 2] && a[i - 2] == b[j - 1] {
        cell := Min(cell, rows[twoUp, j - 2] + 1);
      }
      CellStep(a, b, i, j, rows[up, j], rows[current, j - 1], rows[up, j - 1], if i > 1 && j > 1 then rows[twoUp, j - 2] else 0);
    }

    /** `rows[current][j] = cell`: the two rows read by the recurrence are not touched. */
    method StoreCell(a: seq<int>, b: seq<int>, i: nat, j: nat, up: nat, current: nat, twoUp: nat, cell: int)
      requires 1 <= i <= |a| && j <= |b| && current < 3 && current != up && current != twoUp
      requires RowIs(up, a, b, i - 1)
      requires i >= 2 ==> RowIs(twoUp, a, b, i - 2)
      modifies rows
      ensures RowIs(up, a, b, i - 1)
      ensures i >= 2 ==> RowIs(twoUp, a, b, i - 2)
      ensures rows[current, j] == cell
      ensures forall c {:trigger rows[current, c]} :: 0 <= c <= |b| && c != j ==> rows[current, c] == old(rows[current, c])
    {
      rows[current, j] := cell;
    }

    /**
     * The inner loop of `measure`: fills row `current` with the distances
     * from the first `i` elements of `a`, keeping the rows above, and
     * returns the row's smallest cell.
     */
    method FillRow(a: seq<int>, b: seq<int>, i: nat, up: nat, current: nat, twoUp: nat) returns (smallest: int)
      requires 1 <= i <= |a| && current < 3 && current != up && current != twoUp
      requires RowIs(up, a, b, i - 1)
      requires i >= 2 ==> RowIs(twoUp, a, b, i - 2)
      modifies rows
      ensures RowIs(current, a, b, i)
      ensures RowIs(up, a, b, i - 1)
      ensures i >= 2 ==> RowIs(twoUp, a, b, i - 2)
      ensures forall c {:trigger rows[current, c]} :: 0 <= c <= |b| ==> smallest <= rows[current, c]
      ensures exists c {:trigger rows[current, c]} :: 0 <= c <= |b| && smallest == rows[current, c]
    {
      rows[current, 0] := i;
      smallest := i;
      ghost var at := 0;
      for j := 1 to |b| + 1
        invariant forall c {:trigger rows[current, c]} :: 0 <= c < j ==> rows[current, c] == Dist(a, b, i, c)
        invariant forall c {:trigger rows[current, c]} :: 0 <= c < j ==> smallest <= rows[current, c]
        invariant 0 <= at < j && smallest == rows[current, at]
        invariant RowIs(up, a, b, i - 1)
        invariant i >= 2 ==> RowIs(twoUp, a, b, i - 2)
      {
        var cell := ComputeCell(a, b, i, j, up, current, twoUp);
        if cell < smallest {
          smallest, at := cell, j;
        }
        StoreCell(a, b, i, j, up, current, twoUp, cell);
      }
    }

    /**
     * The table part of `measure`: row `i % 3` receives the distances from
     * the first `i` elements of the longer array `a`, computed from row
     * `(i - 1) % 3` and, for transpositions, row `(i - 2) % 3`; it stops as
     * soon as a whole row exceeds the threshold.
     */
    method MeasureTable(a: seq<int>, b: seq<int>, threshold: int) returns (distance: Option<nat>)
      requires |b| <= |a| && rows.Length0 == 3 && |b| < rows.Length1
      modifies rows
      ensures distance == if Dist(a, b, |a|, |b|) <= threshold then Some(Dist(a, b, |a|, |b|)) else None
    {
      var aLength, bLength := |a|, |b|;
      for j := 0 to bLength + 1
        invariant forall c {:trigger rows[0, c]} :: 0 <= c < j ==> rows[0, c] == Dist(a, b, 0, c)
      {
        rows[0, j] := j;
      }

      var i := 1;
      while i <= aLength
        invariant 1 <= i <= aLength + 1
        invariant RowIs((i - 1) % 3, a, b, i - 1)
        invariant i >= 2 ==> RowIs((i - 2) % 3, a, b, i - 2)
      {
        var up, current, twoUp := (i - 1) % 3, i % 3, (i - 2) % 3;
        RowIndices(i);
        var smallest := FillRow(a, b, i, up, current, twoUp);
        // No later row can hold a cell below this row's minimum.
        if smallest > threshold {
          forall c | 0 <= c <= bLength
            ensures Dist(a, b, i, c) > threshold
          {
            assert rows[current, c] == Dist(a, b, i, c);
          }
          EarlyExitSound(a, b, i, threshold);
          return None;
        }
        i := i + 1;
      }

      var d := rows[aLength % 3, bLength];
      distance := if d <= threshold then Some(d) else None;
    }

    /** `measure`: exact match, then case-only match, then the table. */
    method Measure(option: string, threshold: int) returns (distance: Option<nat>)
      requires Valid()
      modifies rows
      ensures distance == MeasureSpec(input, option, threshold)
    {
      if input == option {
        return Some(0);
      }
      var optionLowerCase := ToLower(option);
      if inputLowerCase == optionLowerCase {
        return Some(1);
      }
      var a := StringToArray(optionLowerCase);
      var b := inputArray;
      if |a| < |b| {
        a, b := b, a;
      }
      assert (a, b) == Ordered(StringToArray(optionLowerCase), inputArray);
      LoweredDistancePositive(input, option);
      distance := MeasureTable(a, b, threshold);
    }
  }

  /**
   * The comparator `sorted` uses in `suggestion_list`, on an option paired
   * with its distance: by distance, ties by natural order.
   */
  function Comparer(p: (string, nat), q: (string, nat)): (r: int)
    ensures p.1 != q.1 ==> (r < 0 <==> p.1 < q.1)
    ensures p.1 == q.1 ==> r == NaturalOrder(p.0, q.0)
  {
    var diff := p.1 as int - q.1 as int;
    if diff != 0 then diff else NaturalOrder(p.0, q.0)
  }

  /** A comparator that never puts both of two elements above the other. */
  ghost predicate Antisymmetric<T(!new)>(cmp: (T, T) -> int) {
    forall x, y :: cmp(x, y) > 0 ==> cmp(y, x) < 0
  }

  /** Swapping the two candidates negates the comparison. */
  lemma ComparerAntisymmetric()
    ensures forall p: (string, nat), q: (string, nat) :: Comparer(p, q) == -Comparer(q, p)
    ensures Antisymmetric(Comparer)
  {
    forall p: (string, nat), q: (string, nat)
      ensures Comparer(p, q) == -Comparer(q, p)
    {
      NaturalOrderAntisymmetric(p.0, q.0);
    }
  }

  /** Each element compares at most equal to the next. */
  ghost predicate AdjacentOrdered<T>(cmp: (T, T) -> int, s: seq<T>) {
    forall k :: 0 <= k < |s| - 1 ==> cmp(s[k], s[k + 1]) <= 0
  }

  /** Stable insertion of `x` behind every element that does not compare above it. */
  function InsertBy<T>(cmp: (T, T) -> int, x: T, s: seq<T>): (r: seq<T>)
    ensures multiset(r) == multiset(s) + multiset{x}
    ensures |r| == |s| + 1 && (r[|r| - 1] == x || (s != [] && r[|r| - 1] == s[|s| - 1]))
    decreases |s|
  {
    if s == [] then [x]
    else
      var init, last := s[..|s| - 1], s[|s| - 1];
      if cmp(last, x) > 0 then
        assert s == init + [last];
        InsertBy(cmp, x, init) + [last]
      else
        s + [x]
  }

  /** Inserting into an ordered sequence keeps it ordered. */
  lemma {:induction false} InsertByOrdered<T(!new)>(cmp: (T, T) -> int, x: T, s: seq<T>)
    requires Antisymmetric(cmp) && AdjacentOrdered(cmp, s)
    ensures AdjacentOrdered(cmp, InsertBy(cmp, x, s))
    decreases |s|
  {
    if s != [] {
      var init, last := s[..|s| - 1], s[|s| - 1];
      if cmp(last, x) > 0 {
        assert AdjacentOrdered(cmp, init) by {
          forall k | 0 <= k < |init| - 1
            ensures cmp(init[k], init[k + 1]) <= 0
          {
            assert init[k] == s[k] && init[k + 1] == s[k + 1];
          }
        }
        InsertByOrdered(cmp, x, init);
        var front := InsertBy(cmp, x, init);
        assert cmp(front[|front| - 1], last) <= 0 by {
          if front[|front| - 1] == x {
            assert cmp(x, last) < 0;
          } else {
            assert cmp(s[|s| - 2], s[|s| - 1]) <= 0;
          }
        }
        AppendOrdered(cmp, front, last);
      } else {
        AppendOrdered(cmp, s, x);
      }
    }
  }

  /** An element that does not compare below the last one can be appended. */
  lemma AppendOrdered<T>(cmp: (T, T) -> int, s: seq<T>, x: T)
    requires AdjacentOrdered(cmp, s) && (s != [] ==> cmp(s[|s| - 1], x) <= 0)
    ensures AdjacentOrdered(cmp, s + [x])
  {
    var r := s + [x];
    forall k | 0 <= k < |r| - 1
      ensures cmp(r[k], r[k + 1]) <= 0
    {
      if k < |s| - 1 {
        assert r[k] == s[k] && r[k + 1] == s[k + 1];
      }
    }
  }


  function SortBy<T(!new)>(cmp: (T, T) -> int, s: seq<T>): (r: seq<T>)
    requires Antisymmetric(cmp)
    ensures multiset(r) == multiset(s)
    ensures AdjacentOrdered(cmp, r)
  {
    if s == [] then []
    else
      assert s == s[..|s| - 1] + [s[|s| - 1]];
      InsertByOrdered(cmp, s[|s| - 1], SortBy(cmp, s[..|s| - 1]));
      InsertBy(cmp, s[|s| - 1], SortBy(cmp, s[..|s| - 1]))
  }

  ghost predicate Distinct<T>(s: seq<T>) {
    forall k, m :: 0 <= k < m < |s| ==> s[k] != s[m]
  }

  lemma {:induction false} DistinctCount<T>(s: seq<T>, x: T)
    requires Distinct(s)
    ensures multiset(s)[x] <= 1
  {
    if s != [] {
      assert s == [s[0]] + s[1..];
      assert Distinct(s[1..]);
      DistinctCount(s[1..], x);
      if x == s[0] {
        assert x !in s[1..];
      }
    }
  }

  /** A permutation of a sequence without repetitions has none either. */
  lemma DistinctPermutation<T>(s: seq<T>, t: seq<T>)
    requires Distinct(s) && multiset(s) == multiset(t)
    ensures Distinct(t)
  {
    forall k, m | 0 <= k < m < |t|
      ensures t[k] != t[m]
    {
      if t[k] == t[m] {
        assert t == t[..m] + [t[m]] + t[m + 1..];
        assert t[k] in t[..m];
        assert multiset(t)[t[k]] >= 2;
        DistinctCount(s, t[k]);
      }
    }
  }

  /** Each adjacent pair in order makes the whole sequence non-decreasing. */
  lemma {:induction false} AdjacentToGlobal(d: seq<int>, k: nat, m: nat)
    requires forall c :: 0 <= c < |d| - 1 ==> d[c] <= d[c + 1]
    requires k <= m < |d|
    ensures d[k] <= d[m]
    decreases m - k
  {
    if k < m {
      AdjacentToGlobal(d, k + 1, m);
    }
  }

  /** The distance `suggestion_list` records for an option it keeps. */
  function DistanceOf(input: string, option: string): nat
    requires MeasureSpec(input, option, Threshold(input)).Some?
  {
    MeasureSpec(input, option, Threshold(input)).value
  }

  /** The dictionary's keys in insertion order, each paired with its distance. */
  function Candidates(byDistance: map<string, nat>, order: seq<string>): (r: seq<(string, nat)>)
    requires forall k :: 0 <= k < |order| ==> order[k] in byDistance
    ensures |r| == |order|
    ensures forall k :: 0 <= k < |order| ==> r[k] == (order[k], byDistance[order[k]])
  {
    seq(|order|, k requires 0 <= k < |order| => (order[k], byDistance[order[k]]))
  }

  /** The options of ranked candidates. */
  function Firsts(s: seq<(string, nat)>): (r: seq<string>)
    ensures |r| == |s| && forall k :: 0 <= k < |s| ==> r[k] == s[k].0
  {
    seq(|s|, k requires 0 <= k < |s| => s[k].0)
  }

  /**
   * Sorting the candidates keeps exactly the dictionary's keys, once each,
   * with distances ascending and equal distances in natural order.
   */
  lemma RankedCandidates(byDistance: map<string, nat>, order: seq<string>, sorted: seq<(string, nat)>)
    requires Distinct(order) && forall k :: 0 <= k < |order| ==> order[k] in byDistance
    requires multiset(sorted) == multiset(Candidates(byDistance, order))
    requires AdjacentOrdered(Comparer, sorted)
    ensures forall k :: 0 <= k < |sorted| ==> sorted[k].0 in byDistance && sorted[k].1 == byDistance[sorted[k].0]
    ensures forall o :: o in Firsts(sorted) <==> o in order
    ensures Distinct(Firsts(sorted))
    ensures forall k, m :: 0 <= k < m < |sorted| ==> sorted[k].1 <= sorted[m].1
    ensures forall k :: 0 <= k < |sorted| - 1 && sorted[k].1 == sorted[k + 1].1 ==>
      NaturalOrder(sorted[k].0, sorted[k + 1].0) <= 0
  {
    RankedMembers(byDistance, order, sorted);
    DistinctPermutation(Candidates(byDistance, order), sorted);
    RankedByDistance(sorted);
  }

  /** The ranked pairs are exactly the candidates, each with its own distance. */
  lemma RankedMembers(byDistance: map<string, nat>, order: seq<string>, sorted: seq<(string, nat)>)
    requires forall k :: 0 <= k < |order| ==> order[k] in byDistance
    requires multiset(sorted) == multiset(Candidates(byDistance, order))
    ensures forall k :: 0 <= k < |sorted| ==> sorted[k].0 in byDistance && sorted[k].1 == byDistance[sorted[k].0]
    ensures forall o :: o in Firsts(sorted) <==> o in order
  {
    var candidates := Candidates(byDistance, order);
    forall k | 0 <= k < |sorted|
      ensures exists j :: 0 <= j < |order| && sorted[k] == candidates[j]
    {
      assert sorted[k] in multiset(sorted);
      assert sorted[k] in candidates;
    }
    forall o
      ensures o in Firsts(sorted) <==> o in order
    {
      if o in order {
        var j :| 0 <= j < |order| && order[j] == o;
        assert candidates[j] in multiset(candidates);
        assert candidates[j] in sorted;
        var k :| 0 <= k < |sorted| && sorted[k] == candidates[j];
        assert Firsts(sorted)[k] == o;
      }
      if o in Firsts(sorted) {
        var k :| 0 <= k < |sorted| && Firsts(sorted)[k] == o;
        var j :| 0 <= j < |order| && sorted[k] == candidates[j];
        assert order[j] == o;
      }
    }
  }

  /** Pairs ordered by `Comparer` run by distance, and by natural order within one distance. */
  lemma RankedByDistance(sorted: seq<(string, nat)>)
    requires AdjacentOrdered(Comparer, sorted)
    ensures forall k, m :: 0 <= k < m < |sorted| ==> sorted[k].1 <= sorted[m].1
    ensures forall k :: 0 <= k < |sorted| - 1 && sorted[k].1 == sorted[k + 1].1 ==>
      NaturalOrder(sorted[k].0, sorted[k + 1].0) <= 0
  {
    var d := seq(|sorted|, k requires 0 <= k < |sorted| => sorted[k].1);
    forall k, m | 0 <= k < m < |sorted|
      ensures sorted[k].1 <= sorted[m].1
    {
      AdjacentToGlobal(d, k, m);
    }
  }


  /**
   * The tail of `suggestion_list`: the dictionary's keys sorted by the
   * comparator; all of them, once each, distances ascending and equal
   * distances in natural order.
   */
  function Rank(byDistance: map<string, nat>, order: seq<string>): (r: seq<string>)
    requires Distinct(order) && forall k :: 0 <= k < |order| ==> order[k] in byDistance
    ensures forall o :: o in r <==> o in order
    ensures Distinct(r)
    ensures forall k :: 0 <= k < |r| ==> r[k] in byDistance
    ensures forall k, m :: 0 <= k < m < |r| ==> byDistance[r[k]] <= byDistance[r[m]]
    ensures forall k :: 0 <= k < |r| - 1 && byDistance[r[k]] == byDistance[r[k + 1]] ==>
      NaturalOrder(r[k], r[k + 1]) <= 0
  {
    ComparerAntisymmetric();
    var sorted := SortBy(Comparer, Candidates(byDistance, order));
    RankedCandidates(byDistance, order, sorted);
    Firsts(sorted)
  }

  /** The ranked keys, read back as options with their measures. */
  lemma RankedOptions(input: string, options: seq<string>, byDistance: map<string, nat>, r: seq<string>)
    requires forall o :: o in byDistance ==> MeasureSpec(input, o, Threshold(input)) == Some(byDistance[o])
    requires forall k :: 0 <= k < |r| ==> r[k] in byDistance
    requires forall k, m :: 0 <= k < m < |r| ==> byDistance[r[k]] <= byDistance[r[m]]
    requires forall k :: 0 <= k < |r| - 1 && byDistance[r[k]] == byDistance[r[k + 1]] ==>
      NaturalOrder(r[k], r[k + 1]) <= 0
    ensures forall k :: 0 <= k < |r| ==> MeasureSpec(input, r[k], Threshold(input)).Some?
    ensures forall k, m :: 0 <= k < m < |r| ==> DistanceOf(input, r[k]) <= DistanceOf(input, r[m])
    ensures forall k :: 0 <= k < |r| - 1 && DistanceOf(input, r[k]) == DistanceOf(input, r[k + 1]) ==>
      NaturalOrder(r[k], r[k + 1]) <= 0
  {
  }

  /**
   * The dictionary `suggestion_list` fills: every option within the
   * threshold mapped to its distance (a repeated option keeps its last,
   * equal, distance).
   */
  function DistancesOf(input: string, options: seq<string>): map<string, nat>
  {
    if options == [] then map[]
    else
      var before := DistancesOf(input, options[..|options| - 1]);
      var option := options[|options| - 1];
      match MeasureSpec(input, option, Threshold(input))
      case Some(d) => before[option := d]
      case None => before
  }

  /** The dictionary's insertion order: each kept option where it first appears. */
  function OrderOf(input: string, options: seq<string>): seq<string>
  {
    if options == [] then []
    else
      var before := OrderOf(input, options[..|options| - 1]);
      var option := options[|options| - 1];
      if MeasureSpec(input, option, Threshold(input)).Some? && option !in DistancesOf(input, options[..|options| - 1])
      then before + [option]
      else before
  }

  /**
   * The dictionary holds exactly the options within the threshold, each
   * with its distance, and its insertion order lists each key once.
   */
  lemma {:induction false} DistancesOfSpec(input: string, options: seq<string>)
    ensures forall o :: o in DistancesOf(input, options) <==> o in options && MeasureSpec(input, o, Threshold(input)).Some?
    ensures forall o :: o in DistancesOf(input, options) ==>
      MeasureSpec(input, o, Threshold(input)) == Some(DistancesOf(input, options)[o])
  {
    if options != [] {
      var init := options[..|options| - 1];
      DistancesOfSpec(input, init);
      assert options == init + [options[|options| - 1]];
    }
  }

  /** The order of first appearance lists each key of the distance map exactly once. */
  lemma {:induction false} OrderOfSpec(input: string, options: seq<string>)
    ensures forall o :: o in OrderOf(input, options) <==> o in DistancesOf(input, options)
    ensures Distinct(OrderOf(input, options))
  {
    if options != [] {
      OrderOfSpec(input, options[..|options| - 1]);
    }
  }


  /**
   * The loop of `suggestion_list`: measures every option against the input
   * with one `LexicalDistance` and records each one within the threshold.
   */
  method CollectDistances(input: string, options: seq<string>) returns (optionsByDistance: map<string, nat>, insertionOrder: seq<string>)
    ensures optionsByDistance == DistancesOf(input, options)
    ensures insertionOrder == OrderOf(input, options)
  {
    optionsByDistance, insertionOrder := map[], [];
    var lexicalDistance := new LexicalDistance(input);
    var threshold := Threshold(input);
    for i := 0 to |options|
      invariant lexicalDistance.Valid() && lexicalDistance.input == input
      invariant optionsByDistance == DistancesOf(input, options[..i])
      invariant insertionOrder == OrderOf(input, options[..i])
    {
      var option := options[i];
      var distance := lexicalDistance.Measure(option, threshold);
      assert options[..i + 1][..i] == options[..i];
      if distance.Some? {
        if option !in optionsByDistance {
          insertionOrder := insertionOrder + [option];
        }
        optionsByDistance := optionsByDistance[option := distance.value];
      }
    }
    assert options[..|options|] == options;
  }

  /**
   * `suggestion_list`: the options whose measure is not None, each once,
   * ordered by ascending distance and, between neighbours at equal
   * distance, by natural order.
   */
  method SuggestionList(input: string, options: seq<string>) returns (r: seq<string>)
    ensures forall o :: o in r <==> o in options && MeasureSpec(input, o, Threshold(input)).Some?
    ensures Distinct(r)
    ensures forall k, m :: 0 <= k < m < |r| ==> DistanceOf(input, r[k]) <= DistanceOf(input, r[m])
    ensures forall k :: 0 <= k < |r| - 1 && DistanceOf(input, r[k]) == DistanceOf(input, r[k + 1]) ==>
      NaturalOrder(r[k], r[k + 1]) <= 0
  {
    var optionsByDistance, insertionOrder := CollectDistances(input, options);
    DistancesOfSpec(input, options);
    OrderOfSpec(input, options);
    r := Rank(optionsByDistance, insertionOrder);
    RankedOptions(input, options, optionsByDistance, r);
  }
}
