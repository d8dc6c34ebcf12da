/** Character classes and string operations of the JavaScript runtime that the
    modelled code relies on: the regular-expression classes `\s`, `\w`, `\d`
    and `.`, `String.prototype.trim`, `includes`, ASCII `toLowerCase`, and the
    number of pieces `split` returns for a separator that matches runs of
    characters (`/\s+/`, `/[.!?]+/`). */
module Text {

  /** The line terminators that `.` does not match and that `\s` includes. */
  predicate IsLineTerminator(c: char) {
    c == '\n' || c == '\r' || c == '\U{2028}' || c == '\U{2029}'
  }

  /** The regular-expression class `\s`, which is also the set of code points
      `trim` removes: white space and line terminators. */
  predicate IsSpace(c: char) {
    || c == '\t' || c == '\U{000B}' || c == '\U{000C}' || c == ' '
    || c == '\U{00A0}' || c == '\U{1680}' || ('\U{2000}' <= c <= '\U{200A}')
    || c == '\U{202F}' || c == '\U{205F}' || c == '\U{3000}' || c == '\U{FEFF}'
    || IsLineTerminator(c)
  }

  predicate NotSpace(c: char) {
    !IsSpace(c)
  }

  predicate IsUpperAscii(c: char) {
    'A' <= c <= 'Z'
  }

  predicate IsLowerAscii(c: char) {
    'a' <= c <= 'z'
  }

  predicate IsDigit(c: char) {
    '0' <= c <= '9'
  }

  /** The regular-expression class `\w`. */
  predicate IsWordChar(c: char) {
    IsUpperAscii(c) || IsLowerAscii(c) || IsDigit(c) || c == '_'
  }

  /** The characters of the class `[.!?]`. */
  predicate IsSentenceEnd(c: char) {
    c == '.' || c == '!' || c == '?'
  }

  function LowerChar(c: char): (r: char)
    ensures IsUpperAscii(c) ==> IsLowerAscii(r) && r as int == c as int + 32
    ensures !IsUpperAscii(c) ==> r == c
    ensures !IsUpperAscii(r)
  {
    if IsUpperAscii(c) then (c as int + 32) as char else c
  }

  /** `toLowerCase`, restricted to the ASCII letters. */
  function Lower(s: string): (r: string)
    ensures |r| == |s|
    ensures forall i :: 0 <= i < |s| ==> r[i] == LowerChar(s[i])
  {
    seq(|s|, i requires 0 <= i < |s| => LowerChar(s[i]))
  }

  lemma LowerConcat(a: string, b: string)
    ensures Lower(a + b) == Lower(a) + Lower(b)
  {
  }

  lemma LowerIdempotent(s: string)
    ensures Lower(Lower(s)) == Lower(s)
  {
  }

  predicate StartsWith(s: string, prefix: string) {
    |prefix| <= |s| && s[..|prefix|] == prefix
  }

  /** `s.includes(sub)`. */
  predicate Contains(s: string, sub: string)
    decreases |s|
  {
    StartsWith(s, sub) || (|s| > 0 && Contains(s[1..], sub))
  }

  /** An occurrence of `sub` in `s` stays an occurrence whatever is appended. */
  lemma {:induction false} ContainsAppend(s: string, t: string, sub: string)
    requires Contains(s, sub)
    ensures Contains(s + t, sub)
    decreases |s|
  {
    if StartsWith(s, sub) {
      assert (s + t)[..|sub|] == s[..|sub|];
    } else {
      assert (s + t)[1..] == s[1..] + t;
      ContainsAppend(s[1..], t, sub);
    }
  }

  /** An occurrence of `sub` at any index of `s` is found by `Contains`. */
  lemma {:induction false} ContainsAt(s: string, sub: string, i: nat)
    requires i + |sub| <= |s| && s[i..i + |sub|] == sub
    ensures Contains(s, sub)
    decreases i
  {
    if i > 0 {
      assert s[1..][i - 1..i - 1 + |sub|] == s[i..i + |sub|];
      ContainsAt(s[1..], sub, i - 1);
    }
  }

  /** `trimStart`: drops the leading white space. */
  function TrimStart(s: string): (r: string)
    ensures |r| <= |s| && r == s[|s| - |r|..]
    ensures forall i :: 0 <= i < |s| - |r| ==> IsSpace(s[i])
    ensures |r| > 0 ==> !IsSpace(r[0])
    decreases |s|
  {
    if |s| > 0 && IsSpace(s[0]) then TrimStart(s[1..]) else s
  }

  /** `trimEnd`: drops the trailing white space. */
  function TrimEnd(s: string): (r: string)
    ensures |r| <= |s| && r == s[..|r|]
    ensures forall i :: |r| <= i < |s| ==> IsSpace(s[i])
    ensures |r| > 0 ==> !IsSpace(r[|r| - 1])
    decreases |s|
  {
    if |s| > 0 && IsSpace(s[|s| - 1]) then TrimEnd(s[..|s| - 1]) else s
  }

  /** `trim`: neither end of the result is white space, and only white space
      was removed. */
  function Trim(s: string): (r: string)
    ensures |r| <= |s|
    ensures |r| > 0 ==> !IsSpace(r[0]) && !IsSpace(r[|r| - 1])
    ensures |s| > 0 && !IsSpace(s[0]) && !IsSpace(s[|s| - 1]) ==> r == s
    ensures exists i, j :: && 0 <= i <= j <= |s| && r == s[i..j]
                           && (forall k :: 0 <= k < i ==> IsSpace(s[k]))
                           && (forall k :: j <= k < |s| ==> IsSpace(s[k]))
  {
    var t := TrimStart(s);
    var i := |s| - |t|;
    var r := TrimEnd(t);
    assert r == s[i..i + |r|];
    assert forall k :: i + |r| <= k < |s| ==> IsSpace(s[k]) by {
      forall k | i + |r| <= k < |s| ensures IsSpace(s[k]) {
        assert s[k] == t[k - i];
      }
    }
    r
  }

  /** Length of the longest prefix of `s` whose characters all satisfy `sep`:
      how far a greedy `+` run starting at the head of `s` reaches. */
  function RunLength(s: string, sep: char -> bool): (n: nat)
    ensures n <= |s|
    ensures forall i :: 0 <= i < n ==> sep(s[i])
    ensures n < |s| ==> !sep(s[n])
    decreases |s|
  {
    if |s| > 0 && sep(s[0]) then 1 + RunLength(s[1..], sep) else 0
  }

  /** `RunLength` is the one length whose prefix is all `sep` and that stops
      at the end or at a character outside `sep`. */
  lemma {:induction false} RunLengthIs(s: string, sep: char -> bool, n: nat)
    requires n <= |s|
    requires forall i :: 0 <= i < n ==> sep(s[i])
    requires n == |s| || !sep(s[n])
    ensures RunLength(s, sep) == n
    decreases n
  {
    if n > 0 {
      RunLengthIs(s[1..], sep, n - 1);
    }
  }

  /** A run that stops inside `s` is not lengthened by what follows `s`. */
  lemma RunLengthExtends(s: string, t: string, sep: char -> bool)
    requires RunLength(s, sep) < |s|
    ensures RunLength(s + t, sep) == RunLength(s, sep)
  {
    var n := RunLength(s, sep);
    assert forall i :: 0 <= i <= n ==> (s + t)[i] == s[i];
    RunLengthIs(s + t, sep, n);
  }

  /** The number of separator matches `split` finds when the separator is a
      run pattern such as `/\s+/`: the scan moves one character at a time
      until a separator character starts a match, which then swallows the
      whole run. */
  function Separators(s: string, sep: char -> bool): nat
    decreases |s|
  {
    if |s| == 0 then 0
    else if sep(s[0]) then 1 + Separators(s[RunLength(s, sep)..], sep)
    else Separators(s[1..], sep)
  }

  /** `s.split(re).length` for a run pattern `re`: one more piece than there
      are separators (so never 0, even for the empty string). */
  function PieceCount(s: string, sep: char -> bool): nat {
    Separators(s, sep) + 1
  }

  /** Reference count of the maximal runs of `p` characters in `s`: the
      indices where such a run ends. */
  function RunEnds(s: string, p: char -> bool): nat
    decreases |s|
  {
    if |s| == 0 then 0
    else (if p(s[0]) && (|s| == 1 || !p(s[1])) then 1 else 0) + RunEnds(s[1..], p)
  }

  /** The number of white-space separated words of `s`. */
  function Words(s: string): nat {
    RunEnds(s, NotSpace)
  }

  /** A maximal run of `p` characters at the head of `s` contributes exactly
      one run end. */
  lemma {:induction false} RunEndsOfRun(s: string, p: char -> bool, n: nat)
    requires 1 <= n <= |s|
    requires forall i :: 0 <= i < n ==> p(s[i])
    requires n == |s| || !p(s[n])
    ensures RunEnds(s, p) == 1 + RunEnds(s[n..], p)
    decreases n
  {
    if n > 1 {
      RunEndsOfRun(s[1..], p, n - 1);
      assert s[1..][n - 1..] == s[n..];
    }
  }

  /** The split scan finds one separator per maximal run of separator
      characters. */
  lemma {:induction false} SeparatorsAreRuns(s: string, sep: char -> bool)
    ensures Separators(s, sep) == RunEnds(s, sep)
    decreases |s|
  {
    if |s| > 0 {
      if sep(s[0]) {
        var n := RunLength(s, sep);
        RunEndsOfRun(s, sep, n);
        SeparatorsAreRuns(s[n..], sep);
      } else {
        SeparatorsAreRuns(s[1..], sep);
      }
    }
  }

  /** Leading characters outside `p` contribute no run end. */
  lemma {:induction false} RunEndsSkip(s: string, p: char -> bool, n: nat)
    requires n <= |s|
    requires forall i :: 0 <= i < n ==> !p(s[i])
    ensures RunEnds(s, p) == RunEnds(s[n..], p)
    decreases n
  {
    if n > 0 {
      RunEndsSkip(s[1..], p, n - 1);
      assert s[1..][n - 1..] == s[n..];
    }
  }

  /** Appending a character outside `p` does not change the run count. */
  lemma {:induction false} RunEndsAppendOther(s: string, p: char -> bool, c: char)
    requires !p(c)
    ensures RunEnds(s + [c], p) == RunEnds(s, p)
    decreases |s|
  {
    if |s| > 0 {
      assert (s + [c])[1..] == s[1..] + [c];
      RunEndsAppendOther(s[1..], p, c);
    }
  }

  lemma {:induction false} RunEndsTrimEnd(s: string)
    ensures RunEnds(TrimEnd(s), NotSpace) == RunEnds(s, NotSpace)
    decreases |s|
  {
    if |s| > 0 && IsSpace(s[|s| - 1]) {
      var t := s[..|s| - 1];
      assert s == t + [s[|s| - 1]];
      RunEndsAppendOther(t, NotSpace, s[|s| - 1]);
      RunEndsTrimEnd(t);
    }
  }

  /** Trimming never changes the number of words. */
  lemma WordsTrim(s: string)
    ensures Words(Trim(s)) == Words(s)
  {
    var t := TrimStart(s);
    RunEndsSkip(s, NotSpace, |s| - |t|);
    RunEndsTrimEnd(t);
  }

  /** In a non-empty string that neither starts nor ends with white space,
      there is one more word than there are white-space runs. */
  lemma {:induction false} WordsBetweenSpaces(t: string)
    requires |t| > 0 && !IsSpace(t[0]) && !IsSpace(t[|t| - 1])
    ensures RunEnds(t, IsSpace) + 1 == RunEnds(t, NotSpace)
    decreases |t|
  {
    var w := RunLength(t, NotSpace);
    RunEndsOfRun(t, NotSpace, w);
    RunEndsSkip(t, IsSpace, w);
    if w < |t| {
      var rest := t[w..];
      var g := RunLength(rest, IsSpace);
      assert g >= 1;
      assert rest[|rest| - 1] == t[|t| - 1];
      RunEndsOfRun(rest, IsSpace, g);
      RunEndsSkip(rest, NotSpace, g);
      var t' := rest[g..];
      assert t'[|t'| - 1] == t[|t| - 1];
      WordsBetweenSpaces(t');
    }
  }

  /** `s.trim().split(/\s+/).length` is the number of words of `s`, except
      that text without any word still yields one (empty) piece. */
  lemma TrimmedPieces(s: string)
    ensures PieceCount(Trim(s), IsSpace) == if Words(s) == 0 then 1 else Words(s)
  {
    var t := Trim(s);
    SeparatorsAreRuns(t, IsSpace);
    WordsTrim(s);
    if |t| > 0 {
      WordsBetweenSpaces(t);
    }
  }
}
