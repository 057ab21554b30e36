/** The problem identifier and the problem records (app/domain/shared/leetcode/models.py).

    A `LeetCodeProblemSlug` can only hold a string that passed the checks of its
    `__post_init__`: the field's subset type `ValidSlug` makes that invariant part of the
    type, so a slug value that exists is a valid one. `NewLeetCodeProblemSlug` is the
    constructor with its checks, written the way the source writes them (a blank
    test, then two regular-expression full matches); `IsValidSlug` states the accepted
    set independently, and the constructor's contract proves the two agree. */
module LeetCode {

  import opened Wrappers
  import opened Text
  import opened Exceptions

  predicate IsLowercaseLetter(c: char) {
    'a' <= c <= 'z'
  }

  /** A character of the class `[a-z-]`. */
  predicate IsSlugChar(c: char) {
    IsLowercaseLetter(c) || c == '-'
  }

  /** The accepted slugs: only lowercase letters and hyphens, with at least one letter
      (so never empty and never all hyphens). Repeated, leading and trailing hyphens
      are allowed. */
  predicate IsValidSlug(s: string) {
    && (forall i | 0 <= i < |s| :: IsSlugChar(s[i]))
    && (exists i | 0 <= i < |s| :: IsLowercaseLetter(s[i]))
  }

  type ValidSlug = s: string | IsValidSlug(s) witness OneLetterSlug()

  /** The shortest valid slug, "a". */
  function OneLetterSlug(): (s: string)
    ensures IsValidSlug(s) && |s| == 1
  {
    assert IsLowercaseLetter("a"[0]);
    "a"
  }

  datatype LeetCodeProblemSlug = LeetCodeProblemSlug(questionSlug: ValidSlug)

  datatype LeetCodeProblem = LeetCodeProblem(questionSlug: LeetCodeProblemSlug)

  /** A plain snapshot of five strings; the source validates none of them. */
  datatype LeetCodeProblemDetails = LeetCodeProblemDetails(
    questionSlug: string,
    questionTitle: string,
    questionContent: string,
    exampleTestcases: string,
    difficulty: string)

  const EMPTY_SLUG_MESSAGE := "Question slug cannot be empty"
  const MALFORMED_SLUG_MESSAGE := "Question slug must contain only lowercase letters and underscores"

  /** `re.fullmatch(r"[a-z-]+", s)` succeeds. */
  predicate FullMatchesSlugClass(s: string) {
    |s| > 0 && forall i | 0 <= i < |s| :: IsSlugChar(s[i])
  }

  /** `re.fullmatch(r"-+", s)` succeeds. */
  predicate FullMatchesHyphens(s: string) {
    |s| > 0 && forall i | 0 <= i < |s| :: s[i] == '-'
  }

  /** The three checks of the source, passed in order, accept exactly `IsValidSlug`. */
  lemma ChecksAcceptExactlyValidSlugs(s: string)
    ensures (!IsBlank(s) && FullMatchesSlugClass(s) && !FullMatchesHyphens(s)) <==> IsValidSlug(s)
  {
    if IsValidSlug(s) {
      var i :| 0 <= i < |s| && IsLowercaseLetter(s[i]);
      assert !IsSpace(s[i]);
      assert s[i] != '-';
    }
    if !IsBlank(s) && FullMatchesSlugClass(s) && !FullMatchesHyphens(s) {
      var i :| 0 <= i < |s| && s[i] != '-';
      assert IsLowercaseLetter(s[i]);
    }
  }

  /** `LeetCodeProblemSlug(question_slug=s)` with its `__post_init__` checks. */
  function NewLeetCodeProblemSlug(s: string): (r: Result<LeetCodeProblemSlug, Error>)
    ensures r.Success? <==> IsValidSlug(s)
    ensures r.Success? ==> r.value.questionSlug == s
    ensures r.Failure? && IsBlank(s) ==> r.error == ValueError(EMPTY_SLUG_MESSAGE)
    ensures r.Failure? && !IsBlank(s) ==> r.error == ValueError(MALFORMED_SLUG_MESSAGE)
  {
    ChecksAcceptExactlyValidSlugs(s);
    if IsBlank(s) then
      Failure(ValueError(EMPTY_SLUG_MESSAGE))
    else if !FullMatchesSlugClass(s) || FullMatchesHyphens(s) then
      Failure(ValueError(MALFORMED_SLUG_MESSAGE))
    else
      Success(LeetCodeProblemSlug(s))
  }

  /** The class method `LeetCodeProblemSlug.of(s)`: the same as constructing with `s`. */
  function Of(s: string): (r: Result<LeetCodeProblemSlug, Error>)
    ensures r == NewLeetCodeProblemSlug(s)
    ensures r.Success? <==> IsValidSlug(s)
    ensures r.Success? ==> r.value.questionSlug == s
  {
    NewLeetCodeProblemSlug(s)
  }

  /** An empty or whitespace-only slug is refused with the "cannot be empty" message. */
  lemma BlankSlugRejected(s: string)
    requires IsBlank(s)
    ensures NewLeetCodeProblemSlug(s) == Failure(ValueError(EMPTY_SLUG_MESSAGE))
  {
  }

  /** Any character outside `[a-z-]` (a digit, an upper-case letter, a space, an
      underscore) makes the slug invalid, although the message speaks of underscores. */
  lemma ForeignCharacterRejected(s: string, i: int)
    requires 0 <= i < |s| && !IsSlugChar(s[i])
    ensures NewLeetCodeProblemSlug(s).Failure?
    ensures !IsBlank(s) ==> NewLeetCodeProblemSlug(s).error == ValueError(MALFORMED_SLUG_MESSAGE)
  {
  }

  /** Concrete accepted slugs: repeated and edge hyphens are allowed. */
  lemma AcceptedExamples()
    ensures NewLeetCodeProblemSlug("two-sum").Success?
    ensures NewLeetCodeProblemSlug("a--b").Success?
    ensures NewLeetCodeProblemSlug("-a").Success?
  {
    assert IsLowercaseLetter("two-sum"[0]);
    assert IsLowercaseLetter("a--b"[0]);
    assert IsLowercaseLetter("-a"[1]);
  }

  /** A slug of hyphens alone is refused, with the "lowercase letters" message. */
  lemma HyphensOnlyRejected()
    ensures NewLeetCodeProblemSlug("---") == Failure(ValueError(MALFORMED_SLUG_MESSAGE))
  {
    assert !IsSpace("---"[0]);
    assert FullMatchesHyphens("---");
  }

  /** Concrete refused slugs: an underscore, an upper-case letter, a digit. */
  lemma RejectedExamples()
    ensures NewLeetCodeProblemSlug("two_sum") == Failure(ValueError(MALFORMED_SLUG_MESSAGE))
    ensures NewLeetCodeProblemSlug("Two-Sum") == Failure(ValueError(MALFORMED_SLUG_MESSAGE))
    ensures NewLeetCodeProblemSlug("1-two-sum") == Failure(ValueError(MALFORMED_SLUG_MESSAGE))
  {
    assert !IsSlugChar("two_sum"[3]) && !IsSpace("two_sum"[0]);
    assert !IsSlugChar("Two-Sum"[0]) && !IsSpace("Two-Sum"[0]);
    assert !IsSlugChar("1-two-sum"[0]) && !IsSpace("1-two-sum"[0]);
  }
}
