/**
 * Natural sort order (atgql/pyutils/natural_compare.py): maximal runs of
 * decimal digits compare by their numeric value, every other character by
 * its code point, and when the scan finds no difference the shorter string
 * comes first.
 */
module NaturalSort {
  import opened Text

  /** End of the maximal run of digits of `s` that starts at `i` (the source's `takewhile`). */
  function DigitRunEnd(s: string, i: nat): (e: nat)
    requires i <= |s|
    ensures i <= e <= |s|
    ensures forall k :: i <= k < e ==> IsDigit(s[k])
    ensures e == |s| || !IsDigit(s[e])
    ensures i < |s| && IsDigit(s[i]) ==> i < e
    decreases |s| - i
  {
    if i < |s| && IsDigit(s[i]) then DigitRunEnd(s, i + 1) else i
  }

  /**
   * The comparison the scanning loop performs once it has reached index `i`
   * of `a` and index `j` of `b`.
   */
  function NaturalOrderFrom(a: string, b: string, i: nat, j: nat): int
    requires i <= |a| && j <= |b|
    decreases |a| - i + |b| - j
  {
    if i < |a| && j < |b| then
      if IsDigit(a[i]) && IsDigit(b[j]) then
        var ea := DigitRunEnd(a, i);
        var eb := DigitRunEnd(b, j);
        var na := DigitsValue(a[i..ea]);
        var nb := DigitsValue(b[j..eb]);
        if na < nb then -1
        else if na > nb then 1
        else NaturalOrderFrom(a, b, ea, eb)
      else if a[i] < b[j] then -1
      else if a[i] > b[j] then 1
      else NaturalOrderFrom(a, b, i + 1, j + 1)
    else |a| - |b|
  }

  /** `natural_compare(a, b)` as a function of its two arguments. */
  function NaturalOrder(a: string, b: string): int {
    NaturalOrderFrom(a, b, 0, 0)
  }

  /**
   * The source's two-index scanner. Every iteration advances both indices by
   * at least one: a digit run is never empty, and any other character moves
   * both indices by exactly one.
   */
  method NaturalCompare(aStr: string, bStr: string) returns (r: int)
    ensures r == NaturalOrder(aStr, bStr)
  {
    var aIdx, bIdx := 0, 0;
    while aIdx < |aStr| && bIdx < |bStr|
      invariant aIdx <= |aStr| && bIdx <= |bStr|
      invariant NaturalOrderFrom(aStr, bStr, aIdx, bIdx) == NaturalOrder(aStr, bStr)
      decreases |aStr| - aIdx + |bStr| - bIdx
    {
      var aChar, bChar := aStr[aIdx], bStr[bIdx];
      if IsDigit(aChar) && IsDigit(bChar) {
        var aEnd := DigitRunEnd(aStr, aIdx);
        var aNum := DigitsValue(aStr[aIdx..aEnd]);
        var bEnd := DigitRunEnd(bStr, bIdx);
        var bNum := DigitsValue(bStr[bIdx..bEnd]);
        aIdx, bIdx := aEnd, bEnd;
        if aNum < bNum {
          return -1;
        }
        if aNum > bNum {
          return 1;
        }
      } else {
        if aChar < bChar {
          return -1;
        }
        if aChar > bChar {
          return 1;
        }
        aIdx, bIdx := aIdx + 1, bIdx + 1;
      }
    }
    return |aStr| - |bStr|;
  }

  /** Every string is equal to itself. */
  lemma {:induction false} NaturalOrderReflexive(s: string)
    ensures NaturalOrder(s, s) == 0
  {
    ReflexiveFrom(s, 0);
  }

  lemma {:induction false} ReflexiveFrom(s: string, i: nat)
    requires i <= |s|
    ensures NaturalOrderFrom(s, s, i, i) == 0
    decreases |s| - i
  {
    if i < |s| {
      if IsDigit(s[i]) {
        ReflexiveFrom(s, DigitRunEnd(s, i));
      } else {
        ReflexiveFrom(s, i + 1);
      }
    }
  }

  /** Swapping the arguments negates the result. */
  lemma {:induction false} NaturalOrderAntisymmetric(a: string, b: string)
    ensures NaturalOrder(a, b) == -NaturalOrder(b, a)
  {
    AntisymmetricFrom(a, b, 0, 0);
  }

  lemma {:induction false} AntisymmetricFrom(a: string, b: string, i: nat, j: nat)
    requires i <= |a| && j <= |b|
    ensures NaturalOrderFrom(a, b, i, j) == -NaturalOrderFrom(b, a, j, i)
    decreases |a| - i + |b| - j
  {
    if i < |a| && j < |b| {
      if IsDigit(a[i]) && IsDigit(b[j]) {
        AntisymmetricFrom(a, b, DigitRunEnd(a, i), DigitRunEnd(b, j));
      } else if a[i] == b[j] {
        AntisymmetricFrom(a, b, i + 1, j + 1);
      }
    }
  }

  /** The digit run starting at `i` of a prefix-extended string is the shifted digit run. */
  lemma {:induction false} DigitRunEndShift(p: string, a: string, i: nat)
    requires i <= |a|
    ensures DigitRunEnd(p + a, |p| + i) == |p| + DigitRunEnd(a, i)
    decreases |a| - i
  {
    if i < |a| && IsDigit(a[i]) {
      DigitRunEndShift(p, a, i + 1);
    }
  }

  /**
   * The comparison from aligned positions depends only on the suffixes, as
   * long as the prefixes skipped have the same length.
   */
  lemma {:induction false} NaturalOrderShift(p: string, q: string, a: string, b: string, i: nat, j: nat)
    requires |p| == |q| && i <= |a| && j <= |b|
    ensures NaturalOrderFrom(p + a, q + b, |p| + i, |q| + j) == NaturalOrderFrom(a, b, i, j)
    decreases |a| - i + |b| - j
  {
    var x, y := p + a, q + b;
    if i < |a| && j < |b| {
      assert x[|p| + i] == a[i] && y[|q| + j] == b[j];
      if IsDigit(a[i]) && IsDigit(b[j]) {
        var ea, eb := DigitRunEnd(a, i), DigitRunEnd(b, j);
        DigitRunEndShift(p, a, i);
        DigitRunEndShift(q, b, j);
        assert x[|p| + i..|p| + ea] == a[i..ea];
        assert y[|q| + j..|q| + eb] == b[j..eb];
        NaturalOrderShift(p, q, a, b, ea, eb);
      } else {
        NaturalOrderShift(p, q, a, b, i + 1, j + 1);
      }
    }
  }

  /** A shared leading character that is not a digit does not influence the order. */
  lemma {:induction false} CommonNonDigitHead(c: char, a: string, b: string)
    requires !IsDigit(c)
    ensures NaturalOrder([c] + a, [c] + b) == NaturalOrder(a, b)
  {
    NaturalOrderShift([c], [c], a, b, 0, 0);
  }

  /** Leading characters that differ, unless both are digits, decide by code point. */
  lemma DifferentHeads(c: char, d: char, a: string, b: string)
    requires c != d && !(IsDigit(c) && IsDigit(d))
    ensures NaturalOrder([c] + a, [d] + b) == if c < d then -1 else 1
  {
  }

  /** The digit run of `x + a` from 0 is all of `x` when `a` does not continue it. */
  lemma {:induction false} DigitRunEndOfRun(x: string, a: string, k: nat)
    requires AllDigits(x) && k <= |x|
    requires a == [] || !IsDigit(a[0])
    ensures DigitRunEnd(x + a, k) == |x|
    decreases |x| - k
  {
    if k < |x| {
      DigitRunEndOfRun(x, a, k + 1);
    }
  }

  /**
   * Two leading maximal digit runs compare by numeric value; when the values
   * are equal (leading zeros may differ) the scan continues after the runs.
   */
  lemma {:induction false} LeadingDigitRuns(x: string, y: string, a: string, b: string)
    requires |x| > 0 && |y| > 0 && AllDigits(x) && AllDigits(y)
    requires a == [] || !IsDigit(a[0])
    requires b == [] || !IsDigit(b[0])
    ensures NaturalOrder(x + a, y + b) ==
      if DigitsValue(x) < DigitsValue(y) then -1
      else if DigitsValue(x) > DigitsValue(y) then 1
      else NaturalOrderFrom(x + a, y + b, |x|, |y|)
    ensures |x| == |y| && DigitsValue(x) == DigitsValue(y) ==>
      NaturalOrder(x + a, y + b) == NaturalOrder(a, b)
  {
    DigitRunEndOfRun(x, a, 0);
    DigitRunEndOfRun(y, b, 0);
    assert (x + a)[0..|x|] == x;
    assert (y + b)[0..|y|] == y;
    assert (x + a)[0] == x[0] && (y + b)[0] == y[0];
    if |x| == |y| {
      NaturalOrderShift(x, y, a, b, 0, 0);
    }
  }

  /**
   * Whole digit strings compare by value, and equal values fall through to
   * the length tie-break: "2" < "11" and "0" < "00".
   */
  lemma {:induction false} DigitStrings(x: string, y: string)
    requires |x| > 0 && |y| > 0 && AllDigits(x) && AllDigits(y)
    ensures NaturalOrder(x, y) ==
      if DigitsValue(x) < DigitsValue(y) then -1
      else if DigitsValue(x) > DigitsValue(y) then 1
      else |x| - |y|
  {
    LeadingDigitRuns(x, y, [], []);
    assert x + [] == x && y + [] == y;
  }

  /**
   * When `a` is a prefix of `b` and the scan cannot see a longer digit run
   * in `b`, no difference is found and the result is `|a| - |b|`; in
   * particular the empty string precedes every non-empty string.
   */
  lemma {:induction false} PrefixComesFirst(a: string, b: string)
    requires a <= b
    requires a == [] || a == b || !IsDigit(a[|a| - 1]) || !IsDigit(b[|a|])
    ensures NaturalOrder(a, b) == |a| - |b|
  {
    PrefixFrom(a, b, 0);
  }

  lemma {:induction false} PrefixFrom(a: string, b: string, i: nat)
    requires a <= b && i <= |a|
    requires a == [] || a == b || !IsDigit(a[|a| - 1]) || !IsDigit(b[|a|])
    ensures NaturalOrderFrom(a, b, i, i) == |a| - |b|
    decreases |a| - i
  {
    if i < |a| {
      assert a[i] == b[i];
      if IsDigit(a[i]) {
        var ea, eb := DigitRunEnd(a, i), DigitRunEnd(b, i);
        forall k | i <= k < ea
          ensures b[k] == a[k]
        {
        }
        assert ea == eb;
        assert a[i..ea] == b[i..eb];
        PrefixFrom(a, b, ea);
      } else {
        PrefixFrom(a, b, i + 1);
      }
    }
  }

  /** Examples from the source's own tests. */
  lemma Examples()
    ensures NaturalOrder("2", "11") == -1
    ensures NaturalOrder("0", "00") == -1
  {
    DigitStrings("2", "11");
    assert DigitsValue("11") == 11 by {
      assert "11"[..1] == "1";
    }
    DigitStrings("0", "00");
    assert DigitsValue("00") == 0 by {
      assert "00"[..1] == "0";
    }
  }

  lemma TextExamples()
    ensures NaturalOrder("", "a") == -1
    ensures NaturalOrder("a0a", "a9a") == -1
  {
    PrefixComesFirst("", "a");
    CommonNonDigitHead('a', "0a", "9a");
    assert "a0a" == ['a'] + "0a" && "a9a" == ['a'] + "9a";
    LeadingDigitRuns("0", "9", "a", "a");
    assert "0a" == "0" + "a" && "9a" == "9" + "a";
  }

}
