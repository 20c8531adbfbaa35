/**
 * Numbered lists as Python's `enumerate(items, start)` writes them:
 * `"{i}. {item}"` with `i` counting up from `start`.
 */
module Listing {
  import opened Strings

  /** The items, each prefixed by its number and `". "`. */
  function Numbered(items: seq<string>, start: int): seq<string>
  {
    seq(|items|, k requires 0 <= k < |items| => Decimal(start + k) + ". " + items[k])
  }

  /** Numbering a list in two parts, the second starting where the first
      stopped, numbers it as a whole. */
  lemma NumberedAppend(xs: seq<string>, ys: seq<string>, start: int)
    ensures Numbered(xs + ys, start) == Numbered(xs, start) + Numbered(ys, start + |xs|)
  {
    var l, r := Numbered(xs + ys, start), Numbered(xs, start) + Numbered(ys, start + |xs|);
    assert |l| == |r|;
    forall k | 0 <= k < |l|
      ensures l[k] == r[k]
    {
      if k >= |xs| {
        assert (xs + ys)[k] == ys[k - |xs|];
        assert start + k == (start + |xs|) + (k - |xs|);
      }
    }
  }

  /** `str` of an integer holds no `.`. */
  lemma DecimalHasNoDot(n: int)
    ensures forall k :: 0 <= k < |Decimal(n)| ==> Decimal(n)[k] != '.'
  {
    if n < 0 {
      assert forall k :: 1 <= k < |Decimal(n)| ==> Decimal(n)[k] == Digits(-n)[k - 1];
    }
  }

  /** Distinct positions give distinct lines, whatever the items are: each
      line starts with its own number, which ends at the first `.`. */
  lemma NumberedLinesDistinct(items: seq<string>, start: int, i: int, j: int)
    requires 0 <= i < |items| && 0 <= j < |items| && i != j
    ensures Numbered(items, start)[i] != Numbered(items, start)[j]
  {
    var a, b := Decimal(start + i), Decimal(start + j);
    var la, lb := Numbered(items, start)[i], Numbered(items, start)[j];
    assert la == a + ". " + items[i] && lb == b + ". " + items[j];
    DecimalHasNoDot(start + i);
    DecimalHasNoDot(start + j);
    if |a| < |b| {
      assert la[|a|] == '.' && lb[|a|] == b[|a|];
    } else if |b| < |a| {
      assert lb[|b|] == '.' && la[|b|] == a[|b|];
    } else {
      if a == b {
        DecimalInjective(start + i, start + j);
      }
      assert exists k :: 0 <= k < |a| && a[k] != b[k];
      var k :| 0 <= k < |a| && a[k] != b[k];
      assert la[k] == a[k] && lb[k] == b[k];
    }
  }

  /** A list numbered from 1 opens with the digit `1`. */
  lemma FirstLineOpensWithOne(items: seq<string>)
    requires |items| > 0
    ensures |Numbered(items, 1)[0]| > 0 && Numbered(items, 1)[0][0] == '1'
  {
    assert Numbered(items, 1)[0] == Decimal(1 + 0) + ". " + items[0];
    assert Decimal(1) == "1";
  }

  /** Appending one line to a text built from lines. */
  lemma ConcatSnoc(lines: seq<string>, line: string)
    ensures Concat(lines + [line]) == Concat(lines) + line
  {
    assert (lines + [line])[..|lines|] == lines;
  }

  /** One more line of a text built line by line. */
  lemma ConcatPrefixStep(lines: seq<string>, i: nat)
    requires i < |lines|
    ensures Concat(lines[..i + 1]) == Concat(lines[..i]) + lines[i]
  {
    assert lines[..i + 1] == lines[..i] + [lines[i]];
    ConcatSnoc(lines[..i], lines[i]);
  }
}
