/**
 * The answer extractor: turns the free text of a model response into an option
 * index 0..9 or `None` (`DebateEvaluator.extract_final_answer`).
 *
 * Step 1 is `re.search(r'FINAL_ANSWER:\s*(\d)', text, re.IGNORECASE)`: the leftmost
 * position where the tag starts, case-insensitively, and is followed by optional
 * whitespace and a digit. Step 2 is `re.findall(r'\b(\d)\b', text)[-1]`: the last
 * digit with a word boundary on both sides. All classes, and the case folding, are ASCII.
 */
module AnswerExtractor {
  import opened Wrappers
  import opened Text

  const TAG: string := "FINAL_ANSWER:"

  /** `pat` occurs case-insensitively in `s` at position `p`. */
  predicate MatchesNoCase(s: string, p: nat, pat: string)
  {
    p + |pat| <= |s| && forall j :: 0 <= j < |pat| ==> Lower(s[p + j]) == Lower(pat[j])
  }

  /** First position at or after `i` that is not whitespace (what a greedy `\s*` consumes). */
  function SkipSpaces(s: string, i: nat): (j: nat)
    requires i <= |s|
    ensures i <= j <= |s|
    ensures forall k :: i <= k < j ==> IsSpace(s[k])
    ensures j < |s| ==> !IsSpace(s[j])
    decreases |s| - i
  {
    if i < |s| && IsSpace(s[i]) then SkipSpaces(s, i + 1) else i
  }

  /** The regular expression `FINAL_ANSWER:\s*(\d)` matches at `p`, its group standing at `g`:
      this is the regex's own meaning, with the `\s*` spanning any run of whitespace. */
  predicate RegexTagMatch(s: string, p: nat, g: nat)
  {
    && MatchesNoCase(s, p, TAG)
    && p + |TAG| <= g < |s|
    && (forall k :: p + |TAG| <= k < g ==> IsSpace(s[k]))
    && IsDigit(s[g])
  }

  /** The tag matches at `p`: the first non-whitespace character after it is a digit. */
  predicate TagMatchAt(s: string, p: nat)
  {
    MatchesNoCase(s, p, TAG) && SkipSpaces(s, p + |TAG|) < |s| && IsDigit(s[SkipSpaces(s, p + |TAG|)])
  }

  /** Backtracking cannot shorten `\s*`, because a digit is never whitespace: the regex
      matches at `p` exactly when `TagMatchAt` holds, and then its group is the first
      non-whitespace character after the tag. */
  lemma TagMatchIsRegexMatch(s: string, p: nat, g: nat)
    ensures RegexTagMatch(s, p, g) <==> TagMatchAt(s, p) && g == SkipSpaces(s, p + |TAG|)
  {
  }

  /** Digit captured by the tag match at `p`. */
  function TagDigit(s: string, p: nat): (d: int)
    requires TagMatchAt(s, p)
    ensures 0 <= d <= 9
  {
    DigitValue(s[SkipSpaces(s, p + |TAG|)])
  }

  /** `re.search` from `from`: the leftmost tag match at or after `from`. */
  function FindTag(s: string, from: nat): (r: Option<nat>)
    requires from <= |s|
    ensures r.Some? ==> from <= r.value < |s| && TagMatchAt(s, r.value)
    ensures r.Some? ==> forall p :: from <= p < r.value ==> !TagMatchAt(s, p)
    ensures r.None? ==> forall p :: from <= p <= |s| ==> !TagMatchAt(s, p)
    decreases |s| - from
  {
    if from == |s| then None
    else if TagMatchAt(s, from) then Some(from)
    else FindTag(s, from + 1)
  }

  /** A digit at `i` with a word boundary on each side (`\b(\d)\b`). */
  predicate IsolatedDigitAt(s: string, i: nat)
  {
    && i < |s|
    && IsDigit(s[i])
    && (i == 0 || !IsWord(s[i - 1]))
    && (i + 1 == |s| || !IsWord(s[i + 1]))
  }

  /** The last isolated digit before position `upto` (the last element of `re.findall`). */
  function LastIsolatedDigit(s: string, upto: nat): (r: Option<nat>)
    requires upto <= |s|
    ensures r.Some? ==> r.value < upto && IsolatedDigitAt(s, r.value)
    ensures r.Some? ==> forall k :: r.value < k < upto ==> !IsolatedDigitAt(s, k)
    ensures r.None? ==> forall k :: 0 <= k < upto ==> !IsolatedDigitAt(s, k)
  {
    if upto == 0 then None
    else if IsolatedDigitAt(s, upto - 1) then Some(upto - 1)
    else LastIsolatedDigit(s, upto - 1)
  }

  /** `extract_final_answer`: `None` for `None` or empty text, else the tagged digit, else the
      last isolated digit, else `None`. */
  function ExtractFinalAnswer(text: Option<string>): (r: Option<int>)
    ensures text.None? || |text.value| == 0 ==> r.None?
    ensures r.Some? ==> 0 <= r.value <= 9
  {
    match text
    case None => None
    case Some(s) =>
      if |s| == 0 then None
      else match FindTag(s, 0)
        case Some(p) => Some(TagDigit(s, p))
        case None =>
          match LastIsolatedDigit(s, |s|)
          case Some(i) => Some(DigitValue(s[i]))
          case None => None
  }

  /** A tag match wins: the answer is the digit after the leftmost match, whatever follows. */
  lemma ExtractTagged(s: string, p: nat)
    requires TagMatchAt(s, p)
    requires forall q :: 0 <= q < p ==> !TagMatchAt(s, q)
    ensures ExtractFinalAnswer(Some(s)) == Some(TagDigit(s, p))
  {
    var r := FindTag(s, 0);
    assert r.Some?;
    assert r.value == p;
  }

  /** Without a tag match the answer is the last isolated digit. */
  lemma ExtractUntagged(s: string, i: nat)
    requires forall p :: 0 <= p <= |s| ==> !TagMatchAt(s, p)
    requires IsolatedDigitAt(s, i)
    requires forall k :: i < k < |s| ==> !IsolatedDigitAt(s, k)
    ensures ExtractFinalAnswer(Some(s)) == Some(DigitValue(s[i]))
  {
  }

  /** The answer is `None` exactly when there is neither a tag match nor an isolated digit. */
  lemma ExtractNone(s: string)
    ensures ExtractFinalAnswer(Some(s)) == None <==>
      (forall p :: 0 <= p <= |s| ==> !TagMatchAt(s, p)) &&
      (forall k :: 0 <= k < |s| ==> !IsolatedDigitAt(s, k))
  {
    if s != "" && FindTag(s, 0).None? && LastIsolatedDigit(s, |s|).Some? {
      assert IsolatedDigitAt(s, LastIsolatedDigit(s, |s|).value);
    }
  }
}
