/** The text heuristics of the healthcare AI service: urgency classification
    by keyword priority, the combined-analysis format, `{{key}}` placeholder
    substitution, the reading-level threshold, and the extraction of a
    recommendation, a timeframe and a reason by lazy regular expressions with
    a fixed fallback sentence. The completions they post-process are
    parameters. */
module HealthcareAI {
  import opened Wrappers
  import opened Text
  import opened Sequences

  // ---------------------------------------------------------------- urgency

  datatype Urgency = Low | Medium | High | Emergency {

    function Rank(): nat {
      match this
      case Low => 0
      case Medium => 1
      case High => 2
      case Emergency => 3
    }
  }

  /** The text the urgency keywords are looked up in. */
  function UrgencyText(analysis: string, verification: string): string {
    Lower(analysis + "\n" + verification)
  }

  predicate EmergencyCue(t: string) {
    Contains(t, "emergency") || Contains(t, "immediate")
  }

  predicate HighCue(t: string) {
    Contains(t, "urgent") || Contains(t, "high risk")
  }

  predicate MediumCue(t: string) {
    Contains(t, "moderate") || Contains(t, "soon")
  }

  /** `determineUrgencyLevel`: the first keyword group, in order of priority,
      found anywhere in the lower-cased analysis and verification. */
  function DetermineUrgency(analysis: string, verification: string): (r: Urgency)
    ensures var t := UrgencyText(analysis, verification);
            && (r == Emergency <==> EmergencyCue(t))
            && (r == High <==> !EmergencyCue(t) && HighCue(t))
            && (r == Medium <==> !EmergencyCue(t) && !HighCue(t) && MediumCue(t))
            && (r == Low <==> !EmergencyCue(t) && !HighCue(t) && !MediumCue(t))
  {
    var t := UrgencyText(analysis, verification);
    if Contains(t, "emergency") || Contains(t, "immediate") then Emergency
    else if Contains(t, "urgent") || Contains(t, "high risk") then High
    else if Contains(t, "moderate") || Contains(t, "soon") then Medium
    else Low
  }

  /** Changing the letter case of either input never changes the urgency. */
  lemma UrgencyCaseInsensitive(a: string, v: string, a': string, v': string)
    requires Lower(a) == Lower(a') && Lower(v) == Lower(v')
    ensures DetermineUrgency(a, v) == DetermineUrgency(a', v')
  {
    LowerConcat(a + "\n", v);
    LowerConcat(a, "\n");
    LowerConcat(a' + "\n", v');
    LowerConcat(a', "\n");
  }

  /** More verification text can only raise the urgency, never lower it. */
  lemma UrgencyNeverDrops(a: string, v: string, more: string)
    ensures DetermineUrgency(a, v + more).Rank() >= DetermineUrgency(a, v).Rank()
  {
    var t := UrgencyText(a, v);
    var t' := UrgencyText(a, v + more);
    assert a + "\n" + (v + more) == (a + "\n" + v) + more;
    LowerConcat(a + "\n" + v, more);
    assert t' == t + Lower(more);
    forall kw | Contains(t, kw)
      ensures Contains(t', kw)
    {
      ContainsAppend(t, Lower(more), kw);
    }
  }

  // --------------------------------------------------------------- combine

  const AnalysisLabel := "Primary Analysis: "
  const VerificationLabel := "\nVerification: "

  /** `combineAnalysis` */
  function CombineAnalysis(analysis: string, verification: string): (r: string)
    ensures |r| == |AnalysisLabel| + |analysis| + |VerificationLabel| + |verification|
    ensures StartsWith(r, AnalysisLabel)
    ensures r[|AnalysisLabel|..|AnalysisLabel| + |analysis|] == analysis
    ensures r[|AnalysisLabel| + |analysis|..|r| - |verification|] == VerificationLabel
    ensures r[|r| - |verification|..] == verification
  {
    AnalysisLabel + analysis + VerificationLabel + verification
  }

  predicate IsNewline(c: char) {
    c == '\n'
  }

  /** Reads a combined analysis back: the analysis runs up to the first line
      break, which must open the verification label. */
  function SplitAnalysis(s: string): (r: Option<(string, string)>)
    ensures r.Some? ==> CombineAnalysis(r.value.0, r.value.1) == s && '\n' !in r.value.0
  {
    if !StartsWith(s, AnalysisLabel) then None
    else
      var rest := s[|AnalysisLabel|..];
      match FindIndex(rest, IsNewline)
      case None => None
      case Some(i) =>
        if StartsWith(rest[i..], VerificationLabel) then
          var analysis := rest[..i];
          var verification := rest[i + |VerificationLabel|..];
          Reassemble(s, AnalysisLabel, VerificationLabel, i);
          Some((analysis, verification))
        else None
  }

  /** Cutting `s` after `head` and around an occurrence of `mid` loses
      nothing. */
  lemma Reassemble(s: string, head: string, mid: string, i: nat)
    requires StartsWith(s, head)
    requires |head| + i <= |s|
    requires StartsWith(s[|head| + i..], mid)
    ensures var rest := s[|head|..];
            s == head + rest[..i] + mid + rest[i + |mid|..]
  {
    var rest := s[|head|..];
    var a, t, x := rest[..i], rest[i..], rest[i + |mid|..];
    assert s == s[..|head|] + rest;
    assert rest == a + t;
    assert t == s[|head| + i..];
    assert t == t[..|mid|] + t[|mid|..];
    assert t[|mid|..] == x;
    Regroup(head, a, mid, x);
  }

  lemma Regroup(head: string, a: string, mid: string, x: string)
    ensures head + (a + (mid + x)) == head + a + mid + x
  {
  }

  /** An analysis without line breaks is recovered, with its verification,
      from the combined text. */
  lemma CombineSplits(analysis: string, verification: string)
    requires '\n' !in analysis
    ensures SplitAnalysis(CombineAnalysis(analysis, verification)) == Some((analysis, verification))
  {
    var s := CombineAnalysis(analysis, verification);
    var n, m := |analysis|, |VerificationLabel|;
    var rest := s[|AnalysisLabel|..];
    assert rest[..n] == s[|AnalysisLabel|..|AnalysisLabel| + n] == analysis;
    assert rest[n..][..m] == s[|AnalysisLabel| + n..|s| - |verification|] == VerificationLabel;
    assert rest[n + m..] == s[|s| - |verification|..] == verification;
    assert forall j :: 0 <= j < n ==> !IsNewline(rest[j]) by {
      forall j | 0 <= j < n ensures !IsNewline(rest[j]) {
        assert rest[j] == rest[..n][j] == analysis[j];
      }
    }
    assert rest[n] == rest[n..][..m][0] == '\n';
    FindIndexIs(rest, IsNewline, n);
  }

  // ------------------------------------------------------------ placeholders

  /** The value a placeholder is replaced by: the context entry, or the empty
      string when the key is absent (an empty entry yields itself). */
  function ContextValue(context: map<string, string>, key: string): string {
    if key in context then context[key] else ""
  }

  /** `s` starts with a `{{key}}` placeholder whose key has `n` characters:
      `{{`, `n` word characters, `}}`. */
  predicate PlaceholderOf(s: string, n: nat) {
    && 1 <= n && n + 4 <= |s|
    && s[0] == '{' && s[1] == '{'
    && (forall i :: 2 <= i < n + 2 ==> IsWordChar(s[i]))
    && s[n + 2] == '}' && s[n + 3] == '}'
  }

  /** The key length of the placeholder at the head of `s`, if any. The greedy
      `\w+` takes the whole run of word characters and cannot give any back,
      since `}` is not one. */
  function PlaceholderAt(s: string): (r: Option<nat>)
    ensures r.Some? ==> PlaceholderOf(s, r.value)
    ensures r.None? ==> forall n :: !PlaceholderOf(s, n)
  {
    if |s| < 4 || s[0] != '{' || s[1] != '{' then None
    else
      var n := RunLength(s[2..], IsWordChar);
      if n >= 1 && n + 4 <= |s| && s[n + 2] == '}' && s[n + 3] == '}' then
        assert forall i :: 2 <= i < n + 2 ==> IsWordChar(s[i]) by {
          forall i | 2 <= i < n + 2 ensures IsWordChar(s[i]) {
            assert s[2..][i - 2] == s[i];
          }
        }
        Some(n)
      else
        assert forall m :: !PlaceholderOf(s, m) by {
          forall m | PlaceholderOf(s, m) ensures RunLength(s[2..], IsWordChar) == m {
            PlaceholderRun(s, m);
          }
        }
        None
  }

  lemma PlaceholderRun(s: string, n: nat)
    requires PlaceholderOf(s, n)
    ensures RunLength(s[2..], IsWordChar) == n
  {
    assert forall i :: 0 <= i < n ==> IsWordChar(s[2..][i]) by {
      forall i | 0 <= i < n ensures IsWordChar(s[2..][i]) {
        assert s[2..][i] == s[i + 2];
      }
    }
    assert s[2..][n] == s[n + 2] == '}';
    RunLengthIs(s[2..], IsWordChar, n);
  }

  /** `adaptContentToContext`: every `{{key}}` placeholder, scanning left to
      right, becomes its context value; every other character is kept. */
  function AdaptContent(content: string, context: map<string, string>): (r: string)
    ensures !Contains(content, "{{") ==> r == content
    decreases |content|
  {
    if |content| == 0 then ""
    else
      var (out, used) := AdaptStep(content, context);
      assert !Contains(content, "{{") ==> out == [content[0]] && used == 1 by {
        if !Contains(content, "{{") {
          assert PlaceholderAt(content).None?;
        }
      }
      out + AdaptContent(content[used..], context)
  }

  /** What the head of non-empty `s` becomes, and how many characters of `s`
      it takes: a whole placeholder, or one character. */
  function AdaptStep(s: string, context: map<string, string>): (r: (string, nat))
    requires |s| > 0
    ensures 1 <= r.1 <= |s|
  {
    match PlaceholderAt(s)
    case Some(n) => (ContextValue(context, s[2..n + 2]), n + 4)
    case None => ([s[0]], 1)
  }

  /** Text without a `{{` is returned unchanged. */
  lemma {:induction false} AdaptWithoutPlaceholders(content: string, context: map<string, string>)
    requires !Contains(content, "{{")
    ensures AdaptContent(content, context) == content
    decreases |content|
  {
    if |content| > 0 {
      assert AdaptStep(content, context) == ([content[0]], 1) by {
        assert PlaceholderAt(content).None?;
      }
      AdaptWithoutPlaceholders(content[1..], context);
    }
  }

  /** A placeholder at the head is replaced by its context value, and
      substitution carries on right after it. */
  lemma AdaptPlaceholder(key: string, rest: string, context: map<string, string>)
    requires |key| >= 1 && forall i :: 0 <= i < |key| ==> IsWordChar(key[i])
    ensures AdaptContent("{{" + key + "}}" + rest, context) == ContextValue(context, key) + AdaptContent(rest, context)
  {
    PlaceholderHead(key, rest, context);
  }

  lemma PlaceholderHead(key: string, rest: string, context: map<string, string>)
    requires |key| >= 1 && forall i :: 0 <= i < |key| ==> IsWordChar(key[i])
    ensures var s := "{{" + key + "}}" + rest;
            AdaptStep(s, context) == (ContextValue(context, key), |key| + 4) && s[|key| + 4..] == rest
  {
    PlaceholderParts(key, rest);
    PlaceholderStep("{{" + key + "}}" + rest, |key|, context);
  }

  lemma PlaceholderParts(key: string, rest: string)
    requires |key| >= 1 && forall i :: 0 <= i < |key| ==> IsWordChar(key[i])
    ensures var s := "{{" + key + "}}" + rest;
            PlaceholderOf(s, |key|) && s[2..|key| + 2] == key && s[|key| + 4..] == rest
  {
    var s := "{{" + key + "}}" + rest;
    var n := |key|;
    assert forall i :: 0 <= i < n ==> s[i + 2] == key[i];
    assert s[2..n + 2] == key;
    assert forall i :: 0 <= i < |rest| ==> s[n + 4 + i] == rest[i];
    assert s[n + 4..] == rest;
    assert s[0] == '{' && s[1] == '{' && s[n + 2] == '}' && s[n + 3] == '}';
  }

  lemma PlaceholderStep(s: string, n: nat, context: map<string, string>)
    requires PlaceholderOf(s, n)
    ensures AdaptStep(s, context) == (ContextValue(context, s[2..n + 2]), n + 4)
  {
    PlaceholderRun(s, n);
    assert PlaceholderAt(s) == Some(n);
  }

  /** A head character that does not open a complete placeholder is copied,
      even a `{`. */
  lemma AdaptPlainChar(c: char, rest: string, context: map<string, string>)
    requires PlaceholderAt([c] + rest).None?
    ensures AdaptContent([c] + rest, context) == [c] + AdaptContent(rest, context)
  {
    var s := [c] + rest;
    assert s[0] == c;
    assert AdaptStep(s, context) == ([c], 1);
    assert s[1..] == rest;
  }

  // ---------------------------------------------------------- reading level

  datatype ReadingLevel = Basic | Intermediate | Advanced

  /** `content.split(/\s+/).length`: one more than the white-space runs. For
      text without white space at either end that is its number of words. */
  function SplitWordCount(content: string): (r: nat)
    ensures r == RunEnds(content, IsSpace) + 1
    ensures |content| > 0 && !IsSpace(content[0]) && !IsSpace(content[|content| - 1]) ==> r == Words(content)
  {
    SeparatorsAreRuns(content, IsSpace);
    if |content| > 0 && !IsSpace(content[0]) && !IsSpace(content[|content| - 1]) then
      WordsBetweenSpaces(content);
      PieceCount(content, IsSpace)
    else
      PieceCount(content, IsSpace)
  }

  /** `content.split(/[.!?]+/).length`: one more than the runs of sentence
      punctuation. */
  function SplitSentenceCount(content: string): (r: nat)
    ensures r == RunEnds(content, IsSentenceEnd) + 1
  {
    SeparatorsAreRuns(content, IsSentenceEnd);
    PieceCount(content, IsSentenceEnd)
  }

  /** `determineReadingLevel`: the average words per sentence compared with 20
      and 15, by cross-multiplication since the sentence count is positive. */
  function DetermineReadingLevel(content: string): (r: ReadingLevel)
    ensures var words := RunEnds(content, IsSpace) + 1;
            var sentences := RunEnds(content, IsSentenceEnd) + 1;
            && (r == Advanced <==> words > 20 * sentences)
            && (r == Intermediate <==> 15 * sentences < words <= 20 * sentences)
            && (r == Basic <==> words <= 15 * sentences)
  {
    var words := SplitWordCount(content);
    var sentences := SplitSentenceCount(content);
    if words > 20 * sentences then Advanced
    else if words > 15 * sentences then Intermediate
    else Basic
  }

  // ------------------------------------------------------------- extraction

  /** A lazy pattern `keyword.*?[.!?]` (with `keyword \d+` in place of the
      keyword when `digit` is set), matched case-insensitively. */
  datatype Cue = Cue(keyword: string, digit: bool)

  const RecommendationCue := Cue("recommend", false)
  const TimeframeCue := Cue("within ", true)
  const ReasonCue := Cue("because", false)

  const NoRecommendation := "No specific recommendation provided."
  const NoTimeframe := "No specific timeframe provided."
  const NoReason := "No specific reason provided."

  /** A keyword in lower case that starts with a letter. */
  predicate ValidCue(cue: Cue) {
    |cue.keyword| >= 1 && IsLowerAscii(cue.keyword[0])
  }

  /** The keyword (and digit, when required) of `cue` starts at `p`. */
  predicate CueAt(s: string, cue: Cue, p: nat) {
    && p + |cue.keyword| <= |s|
    && Lower(s[p..p + |cue.keyword|]) == cue.keyword
    && (cue.digit ==> p + |cue.keyword| < |s| && IsDigit(s[p + |cue.keyword|]))
  }

  /** Where the lazy `.*?` of a match at `p` begins. A greedy `\d+` may take
      further digits, but digits neither close nor block the match, so
      starting right after the first digit finds the same end. */
  function BodyStart(cue: Cue, p: nat): nat {
    p + |cue.keyword| + (if cue.digit then 1 else 0)
  }

  /** `e` is where `.*?[.!?]` starting at `b` stops: the first sentence
      punctuation, with no line terminator before it. */
  predicate Closes(s: string, b: nat, e: nat) {
    && b <= e < |s|
    && IsSentenceEnd(s[e])
    && forall j :: b <= j < e ==> !IsSentenceEnd(s[j]) && !IsLineTerminator(s[j])
  }

  /** The whole pattern matches at `p`. */
  ghost predicate MatchesAt(s: string, cue: Cue, p: nat) {
    CueAt(s, cue, p) && exists e :: Closes(s, BodyStart(cue, p), e)
  }

  /** `m` is the text `s.match(pattern)[0]` returns: the match at the
      leftmost position where the whole pattern matches, ending at the first
      possible place. */
  ghost predicate IsFirstMatch(s: string, cue: Cue, m: string) {
    exists p: nat, e: nat ::
      && CueAt(s, cue, p) && Closes(s, BodyStart(cue, p), e)
      && (forall q: nat :: q < p ==> !MatchesAt(s, cue, q))
      && m == s[p..e + 1]
  }

  function CloseFrom(s: string, b: nat): (r: Option<nat>)
    requires b <= |s|
    ensures r.Some? ==> Closes(s, b, r.value)
    ensures r.None? ==> forall e :: !Closes(s, b, e)
    decreases |s| - b
  {
    if b == |s| then None
    else if IsSentenceEnd(s[b]) then Some(b)
    else if IsLineTerminator(s[b]) then None
    else
      var r := CloseFrom(s, b + 1);
      assert forall e :: Closes(s, b, e) ==> Closes(s, b + 1, e) by {
        forall e | Closes(s, b, e) ensures Closes(s, b + 1, e) {
          assert e != b;
        }
      }
      r
  }

  /** The scan of `match`: try each start from `p` on, keeping the first at
      which the whole pattern matches. */
  function SearchFrom(s: string, cue: Cue, p: nat): (r: Option<(nat, nat)>)
    requires ValidCue(cue)
    ensures r.Some? ==> && p <= r.value.0 && CueAt(s, cue, r.value.0)
                        && Closes(s, BodyStart(cue, r.value.0), r.value.1)
                        && forall q: nat :: p <= q < r.value.0 ==> !MatchesAt(s, cue, q)
    ensures r.None? ==> forall q: nat :: p <= q ==> !MatchesAt(s, cue, q)
    decreases |s| - p
  {
    if p + |cue.keyword| > |s| then None
    else if CueAt(s, cue, p) then
      match CloseFrom(s, BodyStart(cue, p))
      case Some(e) => Some((p, e))
      case None => SearchFrom(s, cue, p + 1)
    else SearchFrom(s, cue, p + 1)
  }

  /** `s.match(pattern)?.[0]` */
  function FindCue(s: string, cue: Cue): (r: Option<string>)
    requires ValidCue(cue)
    ensures r.Some? <==> exists p: nat :: MatchesAt(s, cue, p)
    ensures r.Some? ==> IsFirstMatch(s, cue, r.value)
    ensures r.Some? ==> Trim(r.value) == r.value
  {
    match SearchFrom(s, cue, 0)
    case None => None
    case Some((p, e)) =>
      FoundMatch(s, cue, p, e);
      Some(s[p..e + 1])
  }

  lemma FoundMatch(s: string, cue: Cue, p: nat, e: nat)
    requires ValidCue(cue) && CueAt(s, cue, p) && Closes(s, BodyStart(cue, p), e)
    requires forall q: nat :: q < p ==> !MatchesAt(s, cue, q)
    ensures MatchesAt(s, cue, p)
    ensures IsFirstMatch(s, cue, s[p..e + 1])
    ensures Trim(s[p..e + 1]) == s[p..e + 1]
  {
    MatchIsTrimmed(s, cue, p, e);
  }

  /** A match starts with the keyword's first letter and ends with sentence
      punctuation, so `trim` leaves it as it is. */
  lemma MatchIsTrimmed(s: string, cue: Cue, p: nat, e: nat)
    requires ValidCue(cue) && CueAt(s, cue, p) && Closes(s, BodyStart(cue, p), e)
    ensures Trim(s[p..e + 1]) == s[p..e + 1]
  {
    var m := s[p..e + 1];
    var k := s[p..p + |cue.keyword|];
    assert k[0] == s[p];
    assert LowerChar(k[0]) == cue.keyword[0];
    assert IsUpperAscii(s[p]) || IsLowerAscii(s[p]);
    assert !IsSpace(m[0]);
    assert !IsSpace(m[|m| - 1]);
  }

  /** What every `extract*` helper returns: the first match in `initial`,
      otherwise the first in `verified`, otherwise the fallback sentence. */
  ghost predicate ExtractedFrom(initial: string, verified: string, cue: Cue, fallback: string, r: string) {
    && ((exists p: nat :: MatchesAt(initial, cue, p)) ==> IsFirstMatch(initial, cue, r))
    && ((forall p: nat :: !MatchesAt(initial, cue, p)) && (exists p: nat :: MatchesAt(verified, cue, p)) ==>
          IsFirstMatch(verified, cue, r))
    && ((forall p: nat :: !MatchesAt(initial, cue, p) && !MatchesAt(verified, cue, p)) ==> r == fallback)
  }

  /** The shared body of the `extract*` helpers. Trimming the choice changes
      nothing, since a match starts with a letter and ends with punctuation. */
  function Extract(initial: string, verified: string, cue: Cue, fallback: string): (r: string)
    requires ValidCue(cue)
    requires |fallback| > 0 && !IsSpace(fallback[0]) && !IsSpace(fallback[|fallback| - 1])
    ensures ExtractedFrom(initial, verified, cue, fallback, r)
    ensures Trim(r) == r
  {
    var chosen := match FindCue(initial, cue)
      case Some(m) => m
      case None => FindCue(verified, cue).GetOr(fallback);
    Trim(chosen)
  }

  /** `extractRecommendation` */
  function ExtractRecommendation(initial: string, verified: string): (r: string)
    ensures ExtractedFrom(initial, verified, RecommendationCue, NoRecommendation, r)
    ensures Trim(r) == r
  {
    assert RecommendationCue.keyword[0] == 'r';
    assert NoRecommendation[0] == 'N' && NoRecommendation[|NoRecommendation| - 1] == '.';
    Extract(initial, verified, RecommendationCue, NoRecommendation)
  }

  /** `extractTimeframe` */
  function ExtractTimeframe(initial: string, verified: string): (r: string)
    ensures ExtractedFrom(initial, verified, TimeframeCue, NoTimeframe, r)
    ensures Trim(r) == r
  {
    assert TimeframeCue.keyword[0] == 'w';
    assert NoTimeframe[0] == 'N' && NoTimeframe[|NoTimeframe| - 1] == '.';
    Extract(initial, verified, TimeframeCue, NoTimeframe)
  }

  /** `extractReason` */
  function ExtractReason(initial: string, verified: string): (r: string)
    ensures ExtractedFrom(initial, verified, ReasonCue, NoReason, r)
    ensures Trim(r) == r
  {
    assert ReasonCue.keyword[0] == 'b';
    assert NoReason[0] == 'N' && NoReason[|NoReason| - 1] == '.';
    Extract(initial, verified, ReasonCue, NoReason)
  }
}
