/**
 * The pieces of Python's `str` that the bot relies on: `str(n)` for an
 * integer, `in`/`find`, `replace`, `endswith`, joining lines, and the one
 * regular-expression substitution `re.sub(r"<([^>]+)>", r"\1", text)`.
 * Strings are sequences of Unicode scalar values, as Python's are.
 */
module Strings {
  import opened Options

  predicate IsDigit(c: char) { '0' <= c <= '9' }

  function Digit(d: nat): (c: char)
    requires d < 10
    ensures IsDigit(c)
  {
    (48 + d) as char
  }

  /** The decimal digits of a natural number, without leading zeros. */
  function Digits(n: nat): (s: string)
    ensures |s| > 0 && forall i :: 0 <= i < |s| ==> IsDigit(s[i])
    ensures n < 10 <==> |s| == 1
  {
    if n < 10 then [Digit(n)] else Digits(n / 10) + [Digit(n % 10)]
  }

  /** Python's `str(n)` for an `int`. */
  function Decimal(n: int): string
  {
    if n < 0 then "-" + Digits(-n) else Digits(n)
  }

  lemma {:induction false} DigitsInjective(a: nat, b: nat)
    requires Digits(a) == Digits(b)
    ensures a == b
  {
    if a >= 10 && b >= 10 {
      var da, db := Digits(a), Digits(b);
      assert da[..|da| - 1] == Digits(a / 10);
      assert db[..|db| - 1] == Digits(b / 10);
      DigitsInjective(a / 10, b / 10);
      assert Digit(a % 10) == da[|da| - 1] == db[|db| - 1] == Digit(b % 10);
    }
  }

  /** Two different integers never print the same: `str` is injective. */
  lemma DecimalInjective(a: int, b: int)
    requires Decimal(a) == Decimal(b)
    ensures a == b
  {
    var sa, sb := Decimal(a), Decimal(b);
    assert (a < 0) == (sa[0] == '-');
    assert (b < 0) == (sb[0] == '-');
    if a < 0 {
      assert sa[1..] == Digits(-a) && sb[1..] == Digits(-b);
      DigitsInjective(-a, -b);
    } else {
      DigitsInjective(a, b);
    }
  }

  /** `p` occurs in `s` starting at index `i`. */
  predicate OccursAt(s: string, p: string, i: int)
  {
    0 <= i && i + |p| <= |s| && s[i..i + |p|] == p
  }

  /** Python's `p in s`. */
  ghost predicate Occurs(s: string, p: string)
  {
    exists i :: OccursAt(s, p, i)
  }

  /** The first occurrence of `p` in `s` at or after index `i`. */
  function FindFrom(s: string, p: string, i: nat): (r: Option<nat>)
    requires i <= |s|
    ensures r.Some? ==> i <= r.value && OccursAt(s, p, r.value)
    ensures r.Some? ==> forall j :: i <= j < r.value ==> !OccursAt(s, p, j)
    ensures r.None? <==> forall j :: i <= j ==> !OccursAt(s, p, j)
    decreases |s| - i
  {
    if OccursAt(s, p, i) then Some(i)
    else if i == |s| then None
    else FindFrom(s, p, i + 1)
  }

  /** Python's `s.find(p)`, with `-1` written as `None`. */
  function Find(s: string, p: string): (r: Option<nat>)
    ensures r.None? <==> !Occurs(s, p)
    ensures r.Some? ==> OccursAt(s, p, r.value) && forall j :: 0 <= j < r.value ==> !OccursAt(s, p, j)
  {
    FindFrom(s, p, 0)
  }

  /** Python's `s.replace(p, r)`: every occurrence of `p`, taken from the
      left without overlap, is replaced by `r`. */
  function ReplaceAll(s: string, p: string, r: string): string
    requires |p| > 0
    decreases |s|
  {
    if |s| < |p| then s
    else if s[..|p|] == p then r + ReplaceAll(s[|p|..], p, r)
    else [s[0]] + ReplaceAll(s[1..], p, r)
  }

  lemma OccursInTail(s: string, p: string, i: int)
    requires |s| > 0 && i > 0 && OccursAt(s, p, i)
    ensures OccursAt(s[1..], p, i - 1)
  {
    assert s[1..][i - 1..i - 1 + |p|] == s[i..i + |p|];
  }

  /** Replacing a pattern that does not occur changes nothing. */
  lemma {:induction false} ReplaceAbsent(s: string, p: string, r: string)
    requires |p| > 0 && !Occurs(s, p)
    ensures ReplaceAll(s, p, r) == s
    decreases |s|
  {
    if |s| >= |p| {
      assert !OccursAt(s, p, 0);
      assert s[..|p|] != p;
      if Occurs(s[1..], p) {
        var i :| OccursAt(s[1..], p, i);
        assert s[1..][i..i + |p|] == s[i + 1..i + 1 + |p|];
        assert OccursAt(s, p, i + 1);
      }
      ReplaceAbsent(s[1..], p, r);
      assert [s[0]] + s[1..] == s;
    }
  }

  /** A shorter replacement never lengthens the text, and shortens it
      strictly as soon as the pattern occurs at all. */
  lemma {:induction false} ReplaceShortens(s: string, p: string, r: string)
    requires 0 <= |r| < |p|
    ensures |ReplaceAll(s, p, r)| <= |s|
    ensures Occurs(s, p) ==> |ReplaceAll(s, p, r)| < |s|
    decreases |s|
  {
    if |s| < |p| {
      if Occurs(s, p) {
        var i :| OccursAt(s, p, i);
      }
    } else if s[..|p|] == p {
      ReplaceShortens(s[|p|..], p, r);
    } else {
      ReplaceShortens(s[1..], p, r);
      if Occurs(s, p) {
        var i :| OccursAt(s, p, i);
        assert i != 0;
        OccursInTail(s, p, i);
      }
    }
  }

  /** With a shorter replacement, `replace` leaves the text unchanged
      exactly when the pattern does not occur. */
  lemma ReplaceUnchangedIff(s: string, p: string, r: string)
    requires |r| < |p|
    ensures ReplaceAll(s, p, r) == s <==> !Occurs(s, p)
  {
    ReplaceShortens(s, p, r);
    if !Occurs(s, p) {
      ReplaceAbsent(s, p, r);
    }
  }

  /** Deleting every occurrence of one character leaves none of it. */
  lemma {:induction false} DeleteCharRemovesAll(s: string, c: char)
    ensures forall i :: 0 <= i < |ReplaceAll(s, [c], "")| ==> ReplaceAll(s, [c], "")[i] != c
    decreases |s|
  {
    if |s| >= 1 {
      DeleteCharRemovesAll(s[1..], c);
      if s[..1] != [c] {
        assert s[0] != c;
      }
    }
  }

  /** Python's `s.endswith(suffix)`. */
  predicate EndsWith(s: string, suffix: string)
  {
    |suffix| <= |s| && s[|s| - |suffix|..] == suffix
  }

  /** `"".join(lines)`. */
  function Concat(lines: seq<string>): string
  {
    if lines == [] then "" else Concat(lines[..|lines| - 1]) + lines[|lines| - 1]
  }

  /** `re.sub(r"<([^>]+)>", r"\1", s)`: every `<`, followed by at least one
      character other than `>` and then by `>`, loses its two brackets.
      The match is tried at each position from the left; after a match the
      scan resumes behind its `>`. */
  function StripTags(s: string): string
    decreases |s|
  {
    if s == [] then []
    else if s[0] == '<' then
      match FindFrom(s, ">", 1)
      case Some(j) =>
        if j > 1 then s[1..j] + StripTags(s[j + 1..]) else [s[0]] + StripTags(s[1..])
      case None => [s[0]] + StripTags(s[1..])
    else [s[0]] + StripTags(s[1..])
  }

  predicate IsBracket(c: char) { c == '<' || c == '>' }

  /** The text with every angle bracket left out. */
  function Unbracketed(s: string): string
  {
    if s == [] then []
    else (if IsBracket(s[0]) then [] else [s[0]]) + Unbracketed(s[1..])
  }

  lemma {:induction false} UnbracketedConcat(a: string, b: string)
    ensures Unbracketed(a + b) == Unbracketed(a) + Unbracketed(b)
    decreases |a|
  {
    if a != [] {
      assert (a + b)[1..] == a[1..] + b;
      UnbracketedConcat(a[1..], b);
    } else {
      assert a + b == b;
    }
  }

  /** The brackets of one matched tag `<...>` at the front of `s`. */
  lemma TagAtFront(s: string, j: nat)
    requires 1 < j < |s| && s[0] == '<' && s[j] == '>'
    ensures Unbracketed(s) == Unbracketed(s[1..j]) + Unbracketed(s[j + 1..])
  {
    assert s == [s[0]] + (s[1..j] + ([s[j]] + s[j + 1..]));
    UnbracketedConcat([s[0]], s[1..j] + ([s[j]] + s[j + 1..]));
    UnbracketedConcat(s[1..j], [s[j]] + s[j + 1..]);
    UnbracketedConcat([s[j]], s[j + 1..]);
  }

  /** Tag stripping deletes angle brackets and nothing else: every other
      character survives, in its order. */
  lemma {:induction false} StripTagsKeepsText(s: string)
    ensures Unbracketed(StripTags(s)) == Unbracketed(s)
    decreases |s|
  {
    if s != [] {
      var m := FindFrom(s, ">", 1);
      if s[0] == '<' && m.Some? && m.value > 1 {
        var j := m.value;
        assert OccursAt(s, ">", j);
        StripTagsKeepsText(s[j + 1..]);
        TagAtFront(s, j);
        UnbracketedConcat(s[1..j], StripTags(s[j + 1..]));
      } else {
        StripTagsKeepsText(s[1..]);
        assert s == [s[0]] + s[1..];
        UnbracketedConcat([s[0]], s[1..]);
        UnbracketedConcat([s[0]], StripTags(s[1..]));
      }
    }
  }

  /** A match of `<([^>]+)>` from `i` to `j`: a `<`, then at least one
      character other than `>`, then the `>`. */
  predicate TagAt(s: string, i: int, j: int)
  {
    0 <= i && i + 1 < j < |s| && s[i] == '<' && s[j] == '>' && forall k :: i < k < j ==> s[k] != '>'
  }

  predicate HasTag(s: string)
  {
    exists i, j :: 0 <= i < j < |s| && TagAt(s, i, j)
  }

  /** Tag stripping never lengthens a text. */
  lemma {:induction false} StripTagsNeverLonger(s: string)
    ensures |StripTags(s)| <= |s|
    decreases |s|
  {
    if s != [] {
      var m := FindFrom(s, ">", 1);
      if s[0] == '<' && m.Some? && m.value > 1 {
        StripTagsNeverLonger(s[m.value + 1..]);
      } else {
        StripTagsNeverLonger(s[1..]);
      }
    }
  }

  /** A text holding a tag comes out strictly shorter: some tag loses its
      brackets. */
  lemma {:induction false} StripTagsShortensTag(s: string, i: int, j: int)
    requires TagAt(s, i, j)
    ensures |StripTags(s)| < |s|
    decreases |s|
  {
    var m := FindFrom(s, ">", 1);
    if i == 0 {
      assert OccursAt(s, ">", j);
      assert s[1] != '>' && s[1..2] == [s[1]];
    }
    if s[0] == '<' && m.Some? && m.value > 1 {
      StripTagsNeverLonger(s[m.value + 1..]);
    } else if i == 0 {
      assert false;
    } else {
      assert TagAt(s[1..], i - 1, j - 1);
      StripTagsShortensTag(s[1..], i - 1, j - 1);
    }
  }

  /** A text without a tag is echoed unchanged. */
  lemma {:induction false} StripTagsWithoutTag(s: string)
    requires !HasTag(s)
    ensures StripTags(s) == s
    decreases |s|
  {
    if s != [] {
      var m := FindFrom(s, ">", 1);
      if s[0] == '<' && m.Some? && m.value > 1 {
        assert OccursAt(s, ">", m.value);
        forall k | 0 < k < m.value
          ensures s[k] != '>'
        {
          assert !OccursAt(s, ">", k);
        }
        assert TagAt(s, 0, m.value);
        assert false;
      } else {
        forall i, j | TagAt(s[1..], i, j)
          ensures false
        {
          assert TagAt(s, i + 1, j + 1);
        }
        StripTagsWithoutTag(s[1..]);
        assert [s[0]] + s[1..] == s;
      }
    }
  }

  /** `re.sub` leaves a text unchanged exactly when it holds no tag. */
  lemma StripTagsUnchangedIff(s: string)
    ensures StripTags(s) == s <==> !HasTag(s)
  {
    if HasTag(s) {
      var i, j :| TagAt(s, i, j);
      StripTagsShortensTag(s, i, j);
    } else {
      StripTagsWithoutTag(s);
    }
  }

  /** Text without `<` is echoed unchanged. */
  lemma {:induction false} StripTagsWithoutOpen(s: string)
    requires forall i :: 0 <= i < |s| ==> s[i] != '<'
    ensures StripTags(s) == s
    decreases |s|
  {
    if s != [] {
      StripTagsWithoutOpen(s[1..]);
      assert [s[0]] + s[1..] == s;
    }
  }
}
