/**
 * What the bot sends to the grading service and how it reads the answer:
 * the two-file bundle, the cut at the unittest divider, the success test,
 * the elapsed time found by `re.search(r"\d+\.\d+", text)`, and the tag
 * stripping before the text is echoed back.
 */
module Grading {
  import opened Options
  import opened Strings

  /** The line of 70 dashes unittest prints above its summary. */
  const Divider: string := "----------------------------------------------------------------------"
  const Separator: string := "---"

  /** The grading service's stderr as shown to the submitter: from the first divider
      on, every divider shortened to `---`; the whole text if there is none. */
  function ShownText(output: string): string
  {
    match Find(output, Divider)
    case Some(i) => ReplaceAll(output[i..], Divider, Separator)
    case None => output
  }

  lemma ShownTextWithoutDivider(output: string)
    requires !Occurs(output, Divider)
    ensures ShownText(output) == output
  {
  }

  /** With a divider present, the shown text is the rest of the output from
      the first divider on, with the dividers replaced; it starts with the
      separator, and it is strictly shorter than that rest. */
  lemma ShownTextFromFirstDivider(output: string)
    requires Occurs(output, Divider)
    ensures exists i ::
      && OccursAt(output, Divider, i)
      && (forall j :: 0 <= j < i ==> !OccursAt(output, Divider, j))
      && ShownText(output) == ReplaceAll(output[i..], Divider, Separator)
      && |ShownText(output)| < |output| - i
    ensures |ShownText(output)| >= |Separator| && ShownText(output)[..|Separator|] == Separator
  {
    var i := Find(output, Divider).value;
    var rest := output[i..];
    assert rest[..|Divider|] == Divider;
    assert OccursAt(rest, Divider, 0);
    ReplaceShortens(rest, Divider, Separator);
  }

  /** `str(update.effective_chat.id) == DEVELOPER_CHAT_ID`. */
  predicate IsDeveloper(developer: string, chatId: int)
  {
    developer == Decimal(chatId)
  }

  /** A configured developer id matches at most one chat. */
  lemma DeveloperUnique(developer: string, a: int, b: int)
    requires IsDeveloper(developer, a) && IsDeveloper(developer, b)
    ensures a == b
  {
    DecimalInjective(a, b);
  }

  /** The success test of the submission handler: the shown text ends in
      `OK` and a newline, and the sender is not the developer. */
  predicate Passed(text: string, developer: string, chatId: int)
  {
    EndsWith(text, "OK\n") && !IsDeveloper(developer, chatId)
  }

  // ---- re.search(r"\d+\.\d+", text), with ASCII digits ----

  /** The end of the run of digits that starts at `i`. */
  function DigitsEnd(s: string, i: nat): (j: nat)
    requires i <= |s|
    ensures i <= j <= |s|
    ensures forall k :: i <= k < j ==> IsDigit(s[k])
    ensures j == |s| || !IsDigit(s[j])
    decreases |s| - i
  {
    if i < |s| && IsDigit(s[i]) then DigitsEnd(s, i + 1) else i
  }

  /** Where a match of `\d+\.\d+` that starts at `i` ends, if one does. */
  function MatchAt(s: string, i: nat): Option<nat>
    requires i <= |s|
  {
    var dot := DigitsEnd(s, i);
    if dot == i || dot == |s| || s[dot] != '.' then None
    else
      var end := DigitsEnd(s, dot + 1);
      if end == dot + 1 then None else Some(end)
  }

  /** The leftmost match at or after `i`, as a (start, end) pair. */
  function SearchFrom(s: string, i: nat): (r: Option<(nat, nat)>)
    requires i <= |s|
    ensures r.Some? ==> i <= r.value.0 <= |s| && MatchAt(s, r.value.0) == Some(r.value.1)
    ensures r.Some? ==> forall p :: i <= p < r.value.0 ==> MatchAt(s, p).None?
    ensures r.None? ==> forall p :: i <= p <= |s| ==> MatchAt(s, p).None?
    decreases |s| - i
  {
    if MatchAt(s, i).Some? then Some((i, MatchAt(s, i).value))
    else if i == |s| then None
    else SearchFrom(s, i + 1)
  }

  /** `t` has the shape `\d+\.\d+` as a whole. */
  ghost predicate IsDecimalLiteral(t: string)
  {
    exists d ::
      && 0 < d < |t| - 1 && t[d] == '.'
      && (forall k :: 0 <= k < d ==> IsDigit(t[k]))
      && (forall k :: d < k < |t| ==> IsDigit(t[k]))
  }

  lemma MatchAtSound(s: string, i: nat)
    requires i <= |s| && MatchAt(s, i).Some?
    ensures i < MatchAt(s, i).value <= |s|
    ensures IsDecimalLiteral(s[i..MatchAt(s, i).value])
    ensures MatchAt(s, i).value == |s| || !IsDigit(s[MatchAt(s, i).value])
  {
    var dot := DigitsEnd(s, i);
    var end := MatchAt(s, i).value;
    var t := s[i..end];
    assert t[dot - i] == '.';
    assert forall k :: 0 <= k < dot - i ==> t[k] == s[i + k];
    assert forall k :: dot - i < k < |t| ==> t[k] == s[i + k];
  }

  lemma MatchAtComplete(s: string, i: nat, j: nat)
    requires i <= j <= |s| && IsDecimalLiteral(s[i..j])
    ensures MatchAt(s, i).Some?
  {
    var t := s[i..j];
    var d :| 0 < d < |t| - 1 && t[d] == '.'
      && (forall k :: 0 <= k < d ==> IsDigit(t[k]))
      && (forall k :: d < k < |t| ==> IsDigit(t[k]));
    assert forall k :: i <= k < i + d ==> IsDigit(s[k]) by {
      forall k | i <= k < i + d ensures IsDigit(s[k]) {
        assert s[k] == t[k - i];
      }
    }
    assert s[i + d] == '.' && IsDigit(s[i + d + 1]) by {
      assert s[i + d] == t[d] && s[i + d + 1] == t[d + 1];
    }
    var dot := DigitsEnd(s, i);
    assert dot == i + d;
  }

  /** `re.search(r"\d+\.\d+", s)`: the span of the leftmost match. It is
      absent exactly when no part of `s` has that shape; otherwise it has
      that shape, nothing of that shape starts earlier, and the digits
      after the dot are taken greedily. */
  lemma SearchIsLeftmostMatch(s: string)
    ensures SearchFrom(s, 0).None? <==>
      forall i, j :: 0 <= i <= j <= |s| ==> !IsDecimalLiteral(s[i..j])
    ensures SearchFrom(s, 0).Some? ==>
      var (a, e) := SearchFrom(s, 0).value;
      && a < e <= |s| && IsDecimalLiteral(s[a..e])
      && (e == |s| || !IsDigit(s[e]))
      && forall i, j :: 0 <= i < a && i <= j <= |s| ==> !IsDecimalLiteral(s[i..j])
  {
    var r := SearchFrom(s, 0);
    forall i, j | 0 <= i <= j <= |s| && IsDecimalLiteral(s[i..j])
      ensures MatchAt(s, i).Some?
    {
      MatchAtComplete(s, i, j);
    }
    if r.Some? {
      MatchAtSound(s, r.value.0);
    }
  }

  /** The value of a string of ASCII digits. */
  function NatOf(digits: string): nat
  {
    if digits == [] then 0
    else NatOf(digits[..|digits| - 1]) * 10 + ((digits[|digits| - 1] as int - '0' as int) % 10)
  }

  function Pow10(n: nat): (p: nat)
    ensures p >= 1
  {
    if n == 0 then 1 else 10 * Pow10(n - 1)
  }

  /** `float(re.search(r"\d+\.\d+", text).group())`, as an exact decimal;
      `None` where the source raises because nothing matched. */
  function ElapsedSeconds(text: string): (r: Option<real>)
    ensures r.Some? ==> r.value >= 0.0
    ensures r.None? <==> SearchFrom(text, 0).None?
  {
    match SearchFrom(text, 0)
    case None => None
    case Some((a, e)) =>
      var dot := DigitsEnd(text, a);
      if dot + 1 > e then None
      else Some(NatOf(text[a..dot]) as real + NatOf(text[dot + 1..e]) as real / Pow10(e - dot - 1) as real)
  }

  // ---- the request bundle ----

  datatype SourceFile = SourceFile(name: string, content: string)

  /** The payload of main.py: the challenge's tests, then the user's code. */
  function Bundle(tests: string, code: string): seq<SourceFile>
  {
    [SourceFile("tests.py", tests), SourceFile("user_code.py", code)]
  }

  /** The payload of main_copy.py: a task's unit tests, then the code. */
  function UnitTestBundle(unitTests: string, code: string): seq<SourceFile>
  {
    [SourceFile("unit_tests.py", unitTests), SourceFile("user_code.py", code)]
  }

  /** The content the grading service reads under a file name. */
  function Lookup(files: seq<SourceFile>, name: string): Option<string>
  {
    if files == [] then None
    else if files[0].name == name then Some(files[0].content)
    else Lookup(files[1..], name)
  }

  /** Each bundle holds two differently named files, and the service finds
      the tests and the user's code under their names. */
  lemma BundlesRoundTrip(tests: string, code: string)
    ensures |Bundle(tests, code)| == 2 && Bundle(tests, code)[0].name != Bundle(tests, code)[1].name
    ensures Lookup(Bundle(tests, code), "tests.py") == Some(tests)
    ensures Lookup(Bundle(tests, code), "user_code.py") == Some(code)
    ensures Lookup(UnitTestBundle(tests, code), "unit_tests.py") == Some(tests)
    ensures Lookup(UnitTestBundle(tests, code), "user_code.py") == Some(code)
  {
    assert "tests.py" != "user_code.py" by { assert "tests.py"[0] != "user_code.py"[0]; }
    assert "unit_tests.py" != "user_code.py" by { assert "unit_tests.py"[1] != "user_code.py"[1]; }
  }

  // ---- reading the submission ----

  /** A message as the submission handlers see it: its text (empty when it
      has none) and, for an uploaded file, the file's lines as downloaded. */
  datatype Upload = Upload(text: string, document: Option<seq<string>>)

  /** `for line in file: s += line.decode("utf-8")`. */
  method ReadLines(lines: seq<string>) returns (s: string)
    ensures s == Concat(lines)
  {
    s := "";
    for i := 0 to |lines|
      invariant s == Concat(lines[..i])
    {
      assert lines[..i + 1][..i] == lines[..i];
      s := s + lines[i];
    }
    assert lines[..|lines|] == lines;
  }

  /** main.py: the text if there is one, otherwise the uploaded file. */
  function ChosenCode(msg: Upload): string
  {
    if msg.text != "" then msg.text
    else if msg.document.Some? then Concat(msg.document.value)
    else ""
  }

  /** main_copy.py: the text followed by the uploaded file. */
  function JoinedCode(msg: Upload): string
  {
    msg.text + (if msg.document.Some? then Concat(msg.document.value) else "")
  }

  /** The two bots read a message with only a text, or only a file, the
      same way; a message with both, which main.py reads as its text alone,
      main_copy.py reads as the text followed by the file. */
  lemma ChosenAndJoinedCode(msg: Upload)
    ensures msg.text == "" || msg.document.None? ==> JoinedCode(msg) == ChosenCode(msg)
    ensures msg.text != "" && msg.document.Some? ==>
      JoinedCode(msg) == ChosenCode(msg) + Concat(msg.document.value)
    ensures msg.text != "" && msg.document.Some? && Concat(msg.document.value) != "" ==>
      JoinedCode(msg) != ChosenCode(msg)
  {
    if msg.text != "" && msg.document.Some? && Concat(msg.document.value) != "" {
      assert |JoinedCode(msg)| > |ChosenCode(msg)|;
    }
  }

  /** The code main.py's submission handler grades. */
  method SubmittedCode(msg: Upload) returns (code: string)
    ensures code == ChosenCode(msg)
  {
    code := "";
    if msg.text != "" {
      code := msg.text;
    } else if msg.document.Some? {
      code := ReadLines(msg.document.value);
    }
  }

  /** The code `send_code` in main_copy.py grades. */
  method SubmittedCodeJoined(msg: Upload) returns (code: string)
    ensures code == JoinedCode(msg)
  {
    code := "";
    if msg.text != "" {
      code := msg.text;
    }
    if msg.document.Some? {
      var file := ReadLines(msg.document.value);
      code := code + file;
    }
  }

  /** `send_code` in main_copy.py up to the grading call: the request it
      posts, with that task's unit-test file read by the caller. */
  method SendCodeRequest(msg: Upload, unitTests: string) returns (request: seq<SourceFile>)
    ensures request == UnitTestBundle(unitTests, JoinedCode(msg))
  {
    var code := SubmittedCodeJoined(msg);
    request := UnitTestBundle(unitTests, code);
  }
}
