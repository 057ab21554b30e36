/** The deprecated plain-text formatter
    (app/0ld_deprecated/ui/formatters/testcase/testcase_formatter.py): a loop appends
    four lines per test case to a list, which is then joined with newlines.
    `FormattedLines` specifies the list, and `FormatTestcase` builds it as the source
    does. */
module Formatter {

  import opened Text
  import opened V1Models

  /** The four lines one test case contributes: its input, its expected output, its
      edge flag as Python prints a bool, and an empty separator line. */
  function CaseLines(t: TestCase): (lines: seq<string>)
    ensures |lines| == 4
    ensures lines[0] == "Input: " + t.testCase
    ensures lines[1] == "Expected Output: " + t.expectedResult
    ensures lines[2] == "Is Edge Case: " + (if t.isEdgeCase then "True" else "False")
    ensures lines[3] == ""
  {
    ["Input: " + t.testCase, "Expected Output: " + t.expectedResult, "Is Edge Case: " + BoolToString(t.isEdgeCase), ""]
  }

  /** The line list for a sequence of test cases, in order. */
  function FormattedLines(tcs: seq<TestCase>): seq<string>
    decreases |tcs|
  {
    if tcs == [] then [] else FormattedLines(tcs[..|tcs| - 1]) + CaseLines(tcs[|tcs| - 1])
  }

  /** The list has four lines per test case, and lines 4k to 4k+3 are those of the
      k-th test case. */
  lemma {:induction false} FormattedLinesShape(tcs: seq<TestCase>)
    ensures |FormattedLines(tcs)| == 4 * |tcs|
    ensures forall k | 0 <= k < |tcs| :: FormattedLines(tcs)[4 * k..4 * k + 4] == CaseLines(tcs[k])
  {
    if tcs != [] {
      var prefix := tcs[..|tcs| - 1];
      FormattedLinesShape(prefix);
      var lines := FormattedLines(tcs);
      assert lines == FormattedLines(prefix) + CaseLines(tcs[|tcs| - 1]);
      forall k | 0 <= k < |tcs|
        ensures lines[4 * k..4 * k + 4] == CaseLines(tcs[k])
      {
        if k < |tcs| - 1 {
          assert lines[4 * k..4 * k + 4] == FormattedLines(prefix)[4 * k..4 * k + 4];
          assert prefix[k] == tcs[k];
        } else {
          assert lines[4 * k..4 * k + 4] == CaseLines(tcs[|tcs| - 1]);
        }
      }
    }
  }

  /** `format_testcase(response)`. */
  method FormatTestcase(response: TestCaseGenerationResponse) returns (text: string)
    ensures text == Join(FormattedLines(response.testCases), "\n")
  {
    var tcs := response.testCases;
    var lines: seq<string> := [];
    var i := 0;
    while i < |tcs|
      invariant 0 <= i <= |tcs|
      invariant lines == FormattedLines(tcs[..i])
    {
      var t := tcs[i];
      lines := lines + ["Input: " + t.testCase];
      lines := lines + ["Expected Output: " + t.expectedResult];
      lines := lines + ["Is Edge Case: " + BoolToString(t.isEdgeCase)];
      lines := lines + [""];
      assert tcs[..i + 1][..i] == tcs[..i];
      i := i + 1;
    }
    assert tcs[..i] == tcs;
    text := Join(lines, "\n");
  }

  /** No test cases give the empty text. */
  lemma EmptyFormatsToEmpty(response: TestCaseGenerationResponse)
    requires response.testCases == []
    ensures Join(FormattedLines(response.testCases), "\n") == ""
  {
  }

  /** `s` contains no newline character. */
  predicate NoNewline(s: string) {
    forall i | 0 <= i < |s| :: s[i] != '\n'
  }

  lemma {:induction false} NoNewlineNoOccurrences(s: string)
    requires NoNewline(s)
    ensures Occurrences('\n', s) == 0
  {
    if s != [] {
      NoNewlineNoOccurrences(s[1..]);
    }
  }

  lemma CaseLinesHaveNoNewline(t: TestCase)
    requires NoNewline(t.testCase) && NoNewline(t.expectedResult)
    ensures forall j | 0 <= j < 4 :: NoNewline(CaseLines(t)[j])
  {
    var lines := CaseLines(t);
    assert NoNewline("Input: ");
    assert NoNewline("Expected Output: ");
    assert NoNewline("Is Edge Case: ") && NoNewline("True") && NoNewline("False");
    assert forall a: string, b: string | NoNewline(a) && NoNewline(b) :: NoNewline(a + b);
  }

  /** Line j of the list is line j mod 4 of test case j div 4. */
  lemma LineOfCase(tcs: seq<TestCase>, j: int)
    requires 0 <= j < 4 * |tcs|
    ensures |FormattedLines(tcs)| == 4 * |tcs|
    ensures 0 <= j / 4 < |tcs| && FormattedLines(tcs)[j] == CaseLines(tcs[j / 4])[j % 4]
  {
    FormattedLinesShape(tcs);
    var k := j / 4;
    assert FormattedLines(tcs)[4 * k..4 * k + 4] == CaseLines(tcs[k]);
    assert FormattedLines(tcs)[j] == FormattedLines(tcs)[4 * k..4 * k + 4][j - 4 * k];
  }

  /** When no field contains a newline, n >= 1 test cases give a text with exactly
      4n - 1 newlines: the separators between the 4n lines. */
  lemma NewlineCount(tcs: seq<TestCase>)
    requires |tcs| >= 1
    requires forall k | 0 <= k < |tcs| :: NoNewline(tcs[k].testCase) && NoNewline(tcs[k].expectedResult)
    ensures Occurrences('\n', Join(FormattedLines(tcs), "\n")) == 4 * |tcs| - 1
  {
    var lines := FormattedLines(tcs);
    FormattedLinesShape(tcs);
    forall j | 0 <= j < |lines|
      ensures Occurrences('\n', lines[j]) == 0
    {
      LineOfCase(tcs, j);
      CaseLinesHaveNoNewline(tcs[j / 4]);
      NoNewlineNoOccurrences(lines[j]);
    }
    JoinSeparatorCount(lines, '\n');
  }
}
