/** The JavaScript string built-ins the cost tracker and the asset configuration rely on:
    `toUpperCase`, `trim`, `split(/\s+/)`, `startsWith`, `endsWith`, `indexOf`,
    `replace` with a string pattern, and `split('/').pop()`. A JavaScript string is a
    `seq<char>` here. */
module JsStrings {

  // ---------------------------------------------------------------------------
  // Whitespace: the class JavaScript's `trim` removes and `\s` matches
  // ---------------------------------------------------------------------------

  /** ECMAScript WhiteSpace and LineTerminator code points: tab, vertical tab, form
      feed, space, no-break space, byte-order mark, the other space separators
      (U+1680, U+2000 to U+200A, U+202F, U+205F, U+3000), line feed, carriage return,
      line separator and paragraph separator. */
  predicate IsSpace(c: char) {
    || '\t' <= c <= '\r'
    || c == ' ' || c == '\U{00A0}' || c == '\U{1680}'
    || '\U{2000}' <= c <= '\U{200A}'
    || c == '\U{2028}' || c == '\U{2029}' || c == '\U{202F}' || c == '\U{205F}'
    || c == '\U{3000}' || c == '\U{FEFF}'
  }

  predicate AllSpace(s: string) {
    forall i :: 0 <= i < |s| ==> IsSpace(s[i])
  }

  predicate NoSpace(s: string) {
    forall i :: 0 <= i < |s| ==> !IsSpace(s[i])
  }

  // ---------------------------------------------------------------------------
  // toUpperCase (ASCII letters)
  // ---------------------------------------------------------------------------

  predicate IsLowerAscii(c: char) {
    'a' <= c <= 'z'
  }

  function UpperChar(c: char): (u: char)
    ensures !IsLowerAscii(u)
    ensures IsLowerAscii(c) ==> u as int == c as int - 32
    ensures !IsLowerAscii(c) ==> u == c
  {
    if IsLowerAscii(c) then (c as int - 32) as char else c
  }

  /** `s.toUpperCase()`, character by character. */
  function ToUpperCase(s: string): (r: string)
    ensures |r| == |s|
    ensures forall i :: 0 <= i < |s| ==> r[i] == UpperChar(s[i])
  {
    if s == [] then [] else [UpperChar(s[0])] + ToUpperCase(s[1..])
  }

  /** Two strings that differ only in the case of ASCII letters. */
  predicate EqualIgnoringCase(a: string, b: string) {
    |a| == |b| && forall i :: 0 <= i < |a| ==> UpperChar(a[i]) == UpperChar(b[i])
  }

  /** Upper-casing forgets exactly the case of letters: two strings have the same
      upper-case form if and only if they are equal ignoring case. */
  lemma {:induction false} ToUpperCaseIdentifiesCase(a: string, b: string)
    ensures ToUpperCase(a) == ToUpperCase(b) <==> EqualIgnoringCase(a, b)
  {
  }

  /** An upper-cased string holds no lower-case ASCII letter. */
  lemma ToUpperCaseHasNoLowerAscii(s: string, i: nat)
    requires i < |s|
    ensures !IsLowerAscii(ToUpperCase(s)[i])
  {
  }

  // ---------------------------------------------------------------------------
  // trim
  // ---------------------------------------------------------------------------

  /** `s` without its leading whitespace. */
  function TrimStart(s: string): (r: string)
    ensures |r| <= |s| && r == s[|s| - |r|..]
    ensures AllSpace(s[..|s| - |r|])
    ensures r == [] || !IsSpace(r[0])
  {
    if s != [] && IsSpace(s[0]) then TrimStart(s[1..]) else s
  }

  /** `s` without its trailing whitespace. */
  function TrimEnd(s: string): (r: string)
    ensures |r| <= |s| && r == s[..|r|]
    ensures AllSpace(s[|r|..])
    ensures r == [] || !IsSpace(r[|r| - 1])
  {
    if s != [] && IsSpace(s[|s| - 1]) then
      var r := TrimEnd(s[..|s| - 1]);
      assert s[|r|..] == s[..|s| - 1][|r|..] + [s[|s| - 1]];
      r
    else s
  }

  /** `s.trim()`. */
  function Trim(s: string): (r: string)
    ensures r == [] || (!IsSpace(r[0]) && !IsSpace(r[|r| - 1]))
  {
    TrimEnd(TrimStart(s))
  }

  lemma TrimStartDecomposes(s: string) returns (lead: string)
    ensures AllSpace(lead) && s == lead + TrimStart(s)
  {
    lead := s[..|s| - |TrimStart(s)|];
  }

  lemma TrimEndDecomposes(s: string) returns (trail: string)
    ensures AllSpace(trail) && s == TrimEnd(s) + trail
  {
    trail := s[|TrimEnd(s)|..];
  }

  /** `s.trim()` removes whitespace only, and only at the two ends. */
  lemma TrimDecomposes(s: string) returns (lead: string, trail: string)
    ensures s == lead + Trim(s) + trail
    ensures AllSpace(lead) && AllSpace(trail)
  {
    lead := TrimStartDecomposes(s);
    trail := TrimEndDecomposes(TrimStart(s));
  }

  // ---------------------------------------------------------------------------
  // split(/\s+/) and the number of words
  // ---------------------------------------------------------------------------

  /** Index of the first whitespace character of `s`, or |s| when there is none. */
  function FirstSpace(s: string): (i: nat)
    ensures i <= |s|
    ensures i < |s| ==> IsSpace(s[i])
    ensures NoSpace(s[..i])
  {
    if s == [] || IsSpace(s[0]) then 0 else 1 + FirstSpace(s[1..])
  }

  /** `s.split(/\s+/)`: the pieces of `s` between maximal runs of whitespace. A
      leading or trailing run yields an empty first or last piece, and the empty
      string yields one empty piece. */
  function SplitOnWhitespace(s: string): (pieces: seq<string>)
    ensures |pieces| >= 1
    ensures forall k :: 0 <= k < |pieces| ==> NoSpace(pieces[k])
    decreases |s|
  {
    var i := FirstSpace(s);
    if i == |s| then [s]
    else [s[..i]] + SplitOnWhitespace(TrimStart(s[i..]))
  }

  /** Counts the maximal runs of non-whitespace characters of `s`, scanning left to
      right; `inWord` tells whether the character just before `s` belonged to one. */
  function CountWords(s: string, inWord: bool): nat {
    if s == [] then 0
    else if IsSpace(s[0]) then CountWords(s[1..], false)
    else (if inWord then 0 else 1) + CountWords(s[1..], true)
  }

  /** Number of words of `s`: its maximal runs of non-whitespace characters. */
  function WordCount(s: string): nat {
    CountWords(s, false)
  }

  lemma {:induction false} CountWordsAfterSpaces(sp: string, rest: string, inWord: bool)
    requires sp != [] && AllSpace(sp)
    ensures CountWords(sp + rest, inWord) == CountWords(rest, false)
    decreases |sp|
  {
    assert (sp + rest)[1..] == sp[1..] + rest;
    if |sp| > 1 {
      CountWordsAfterSpaces(sp[1..], rest, false);
    }
  }

  lemma {:induction false} CountWordsAfterWord(w: string, rest: string, inWord: bool)
    requires w != [] && NoSpace(w)
    ensures CountWords(w + rest, inWord) == (if inWord then 0 else 1) + CountWords(rest, true)
    decreases |w|
  {
    assert (w + rest)[1..] == w[1..] + rest;
    if |w| > 1 {
      CountWordsAfterWord(w[1..], rest, true);
    }
  }

  lemma {:induction false} CountWordsIgnoresTrailingSpaces(m: string, sp: string, inWord: bool)
    requires AllSpace(sp)
    ensures CountWords(m + sp, inWord) == CountWords(m, inWord)
    decreases |m|
  {
    if m == [] {
      assert m + sp == sp;
      if sp != [] {
        CountWordsAfterSpaces(sp, [], inWord);
        assert sp + [] == sp;
      }
    } else {
      assert (m + sp)[1..] == m[1..] + sp;
      CountWordsIgnoresTrailingSpaces(m[1..], sp, !IsSpace(m[0]));
    }
  }

  /** On a string that neither starts nor ends with whitespace, `split(/\s+/)`
      yields exactly one piece per word. */
  lemma {:induction false} SplitCountsWords(t: string)
    requires t != [] && !IsSpace(t[0]) && !IsSpace(t[|t| - 1])
    ensures |SplitOnWhitespace(t)| == WordCount(t)
    decreases |t|
  {
    var i := FirstSpace(t);
    if i == |t| {
      assert t + [] == t;
      CountWordsAfterWord(t, [], false);
    } else {
      var u := TrimStart(t[i..]);
      var sp := t[i..|t| - |u|];
      assert u != [];
      assert u[|u| - 1] == t[|t| - 1];
      assert t == t[..i] + (sp + u);
      SplitCountsWords(u);
      CountWordsAfterWord(t[..i], sp + u, false);
      CountWordsAfterSpaces(sp, u, true);
    }
  }

  /** Dropping leading whitespace keeps every word. */
  lemma {:induction false} TrimStartKeepsWords(s: string)
    ensures WordCount(TrimStart(s)) == WordCount(s)
  {
    var lead := TrimStartDecomposes(s);
    if lead != [] {
      CountWordsAfterSpaces(lead, TrimStart(s), false);
    }
  }

  /** Dropping trailing whitespace keeps every word. */
  lemma {:induction false} TrimEndKeepsWords(s: string)
    ensures WordCount(TrimEnd(s)) == WordCount(s)
  {
    var trail := TrimEndDecomposes(s);
    CountWordsIgnoresTrailingSpaces(TrimEnd(s), trail, false);
  }

  /** Trimming keeps every word. */
  lemma {:induction false} TrimKeepsWords(s: string)
    ensures WordCount(Trim(s)) == WordCount(s)
  {
    TrimStartKeepsWords(s);
    TrimEndKeepsWords(TrimStart(s));
  }

  /** `s.trim().split(/\s+/).length` is the number of words of `s`, or 1 when `s`
      has none (the split of the empty string still has one piece). */
  lemma {:induction false} TrimSplitLength(s: string)
    ensures |SplitOnWhitespace(Trim(s))| == if WordCount(s) == 0 then 1 else WordCount(s)
  {
    TrimKeepsWords(s);
    var t := Trim(s);
    if t != [] {
      SplitCountsWords(t);
    } else {
      assert WordCount(t) == 0;
    }
  }

  // ---------------------------------------------------------------------------
  // startsWith, endsWith, indexOf, replace, split('/').pop()
  // ---------------------------------------------------------------------------

  /** `s.startsWith(p)`: `s` is `p` followed by the rest of `s`. */
  predicate StartsWith(s: string, p: string)
  {
    |p| <= |s| && s[..|p|] == p
  }

  /** `s.startsWith(p)` holds exactly when `s` is `p` followed by the rest of `s`. */
  lemma {:induction false} StartsWithMeansPrefix(s: string, p: string)
    ensures StartsWith(s, p) <==> |p| <= |s| && s == p + s[|p|..]
    ensures StartsWith(p + s, p)
  {
    assert (p + s)[..|p|] == p;
  }

  /** `s.endsWith(p)`: `s` is the rest of `s` followed by `p`. */
  predicate EndsWith(s: string, p: string)
  {
    |p| <= |s| && s[|s| - |p|..] == p
  }

  /** `s.endsWith(p)` holds exactly when `s` is the rest of `s` followed by `p`. */
  lemma {:induction false} EndsWithMeansSuffix(s: string, p: string)
    ensures EndsWith(s, p) <==> |p| <= |s| && s == s[..|s| - |p|] + p
    ensures EndsWith(s + p, p)
  {
    assert (s + p)[|s|..] == p;
  }

  /** `pat` occurs in `s` starting at index `k`. */
  predicate OccursAt(s: string, pat: string, k: int) {
    0 <= k && k + |pat| <= |s| && s[k..k + |pat|] == pat
  }

  /** `s.indexOf(pat)`: the first index at which `pat` occurs, or -1. */
  function IndexOf(s: string, pat: string): (k: int)
    ensures k == -1 || OccursAt(s, pat, k)
    ensures forall j :: 0 <= j && (k == -1 || j < k) ==> !OccursAt(s, pat, j)
  {
    if |s| < |pat| then -1
    else if s[..|pat|] == pat then 0
    else
      var k := IndexOf(s[1..], pat);
      ShiftOccurrence(s, pat);
      assert s[0..|pat|] == s[..|pat|];
      if k == -1 then -1 else k + 1
  }

  /** Occurrences in `s[1..]` are occurrences in `s`, one index later. */
  lemma ShiftOccurrence(s: string, pat: string)
    requires s != []
    ensures forall j :: 1 <= j ==> (OccursAt(s, pat, j) <==> OccursAt(s[1..], pat, j - 1))
  {
  }

  /** `s.replace(pat, '')`: `s` without the first occurrence of `pat`. */
  function RemoveFirst(s: string, pat: string): (r: string)
    ensures IndexOf(s, pat) == -1 ==> r == s
    ensures IndexOf(s, pat) != -1 ==>
      var k := IndexOf(s, pat); |r| == |s| - |pat| && s == r[..k] + pat + r[k..]
  {
    var k := IndexOf(s, pat);
    if k == -1 then s
    else
      var r := s[..k] + s[k + |pat|..];
      assert r[..k] == s[..k] && r[k..] == s[k + |pat|..];
      assert s == s[..k] + s[k..k + |pat|] + s[k + |pat|..];
      r
  }

  /** `s.split('/').pop()`: the text after the last '/', or all of `s` when it has
      none. */
  function LastSegment(s: string): (r: string)
    ensures |r| <= |s| && r == s[|s| - |r|..]
    ensures '/' !in r
    ensures |r| < |s| ==> s[|s| - |r| - 1] == '/'
  {
    if s == [] then []
    else if s[|s| - 1] == '/' then []
    else LastSegment(s[..|s| - 1]) + [s[|s| - 1]]
  }

  /** Text ending in '/' before a name does not change its last segment. */
  lemma {:induction false} LastSegmentAfterPrefix(prefix: string, name: string)
    requires prefix != [] && prefix[|prefix| - 1] == '/'
    ensures LastSegment(prefix + name) == LastSegment(name)
    decreases |name|
  {
    var s := prefix + name;
    if name == [] {
      assert s == prefix;
    } else if name[|name| - 1] != '/' {
      var init := name[..|name| - 1];
      assert s[..|s| - 1] == prefix + init;
      LastSegmentAfterPrefix(prefix, init);
    }
  }

  /** Whatever comes before the last '/' does not matter to `split('/').pop()`. */
  lemma {:induction false} LastSegmentAfterSlash(dir: string, name: string)
    ensures LastSegment(dir + "/" + name) == LastSegment(name)
  {
    var prefix := dir + "/";
    assert dir + "/" + name == prefix + name;
    LastSegmentAfterPrefix(prefix, name);
  }
}
