/** The string primitives every tool is built from: the character classes behind Python's
    `\w`, `\s` and `\b`, `str.lower`, `str.split()`, `str.strip()`, the sentence split
    `re.split(r'[.!?]+', ...)`, the whitespace repairs `re.sub(r'\s+', ' ', ...)` and
    `re.sub(r'\s+([.,!?;:])', r'\1', ...)`, `' '.join`, and the decimal rendering of integers.
    Character classes are the ASCII ones (see README, "Left out"). */
module TextPrimitives {

  // ---------------------------------------------------------------------------------------
  // Character classes

  /** `\w`, restricted to ASCII. */
  predicate IsWordChar(c: char) {
    ('a' <= c <= 'z') || ('A' <= c <= 'Z') || ('0' <= c <= '9') || c == '_'
  }

  /** `\s`, and the separators of `str.split()` and `str.strip()`, restricted to ASCII: tab,
      line feed, vertical tab, form feed, carriage return, the separators 0x1C-0x1F, space. */
  predicate IsSpace(c: char) {
    c == ' ' || ('\t' <= c <= '\r') || ('\U{001C}' <= c <= '\U{001F}')
  }

  predicate IsNonSpace(c: char) {
    !IsSpace(c)
  }

  /** The sentence terminators of `[.!?]+`. */
  predicate IsTerminator(c: char) {
    c == '.' || c == '!' || c == '?'
  }

  /** The punctuation of `\s+([.,!?;:])`. */
  predicate IsClosingPunct(c: char) {
    c == '.' || c == ',' || c == '!' || c == '?' || c == ';' || c == ':'
  }

  /** `str.lower()` on one character, ASCII letters only. */
  function Lower(c: char): char {
    if 'A' <= c <= 'Z' then (c as int + 32) as char else c
  }

  /** Lowering a character keeps it in its class. */
  lemma LowerKeepsClass(c: char)
    ensures IsWordChar(Lower(c)) == IsWordChar(c)
    ensures IsSpace(Lower(c)) == IsSpace(c)
  {
  }

  function LowerString(s: string): (r: string)
    ensures |r| == |s| && forall i :: 0 <= i < |s| ==> r[i] == Lower(s[i])
  {
    seq(|s|, i requires 0 <= i < |s| => Lower(s[i]))
  }

  /** The two strings are equal under `re.IGNORECASE` (ASCII case folding). */
  predicate LowerEq(a: string, b: string) {
    |a| == |b| && forall i :: 0 <= i < |a| ==> Lower(a[i]) == Lower(b[i])
  }

  /** `\b` at position i of s: exactly one of the characters around i is a word character. */
  predicate Boundary(s: string, i: nat)
    requires i <= |s|
  {
    (0 < i && IsWordChar(s[i - 1])) != (i < |s| && IsWordChar(s[i]))
  }

  predicate AllWordChars(s: string) {
    forall j :: 0 <= j < |s| ==> IsWordChar(s[j])
  }

  predicate NoWordChar(s: string) {
    forall j :: 0 <= j < |s| ==> !IsWordChar(s[j])
  }

  predicate NoSpace(s: string) {
    forall j :: 0 <= j < |s| ==> !IsSpace(s[j])
  }

  predicate AllSpace(s: string) {
    forall j :: 0 <= j < |s| ==> IsSpace(s[j])
  }

  // ---------------------------------------------------------------------------------------
  // Runs

  /** The end of the maximal run of characters satisfying inRun that starts at i. */
  function RunEnd(s: string, i: nat, inRun: char -> bool): (k: nat)
    requires i <= |s|
    ensures i <= k <= |s|
    ensures forall j :: i <= j < k ==> inRun(s[j])
    ensures k == |s| || !inRun(s[k])
    decreases |s| - i
  {
    if i < |s| && inRun(s[i]) then RunEnd(s, i + 1, inRun) else i
  }

  lemma RunEndUnique(s: string, i: nat, inRun: char -> bool, k: nat)
    requires i <= k <= |s|
    requires forall j :: i <= j < k ==> inRun(s[j])
    requires k == |s| || !inRun(s[k])
    ensures RunEnd(s, i, inRun) == k
  {
  }

  // ---------------------------------------------------------------------------------------
  // Tokens: str.split()

  /** `str.split()`: the maximal runs of non-whitespace characters, in order. */
  function Tokens(s: string): (ts: seq<string>)
    ensures forall k :: 0 <= k < |ts| ==> ts[k] != [] && NoSpace(ts[k])
    ensures ts == [] <==> AllSpace(s)
    decreases |s|
  {
    if s == [] then []
    else if IsSpace(s[0]) then Tokens(s[1..])
    else
      var k := RunEnd(s, 0, IsNonSpace);
      [s[..k]] + Tokens(s[k..])
  }

  /** gaps[0] + ts[0] + gaps[1] + ts[1] + ... + ts[n - 1] + gaps[n]. */
  function Weave(gaps: seq<string>, ts: seq<string>): string
    requires |gaps| == |ts| + 1
  {
    if ts == [] then gaps[0] else gaps[0] + ts[0] + Weave(gaps[1..], ts[1..])
  }

  /** s is its tokens ts with the whitespace gaps in between: every gap is whitespace, and the
      gaps that separate two tokens are not empty. */
  predicate SplitInto(s: string, gaps: seq<string>, ts: seq<string>) {
    && |gaps| == |ts| + 1
    && s == Weave(gaps, ts)
    && (forall k :: 0 <= k < |gaps| ==> AllSpace(gaps[k]))
    && (forall k :: 0 < k < |ts| ==> gaps[k] != [])
  }

  /** `str.split()` cuts s into whitespace and its tokens. As the tokens are non-empty and hold
      no whitespace, they are exactly the maximal non-whitespace runs of s, in order. */
  lemma {:induction false} TokensSplit(s: string) returns (gaps: seq<string>)
    ensures SplitInto(s, gaps, Tokens(s))
    decreases |s|
  {
    if s == [] {
      gaps := [[]];
    } else if IsSpace(s[0]) {
      var rest := Tokens(s[1..]);
      var tail := TokensSplit(s[1..]);
      assert Tokens(s) == rest;
      gaps := [[s[0]] + tail[0]] + tail[1..];
      WeaveLonger(s[0], tail, rest);
      assert s == [s[0]] + s[1..];
      forall k | 0 < k < |rest| ensures gaps[k] != [] {
        assert gaps[k] == tail[k];
      }
    } else {
      var e := RunEnd(s, 0, IsNonSpace);
      var tail := TokensSplit(s[e..]);
      assert Tokens(s) == [s[..e]] + Tokens(s[e..]);
      gaps := [[]] + tail;
      WeaveFirstToken(s, e, tail, Tokens(s[e..]));
    }
  }

  /** A first token s[..e] in front of a split of the rest of s: the gap after it is not
      empty, since s[e] is whitespace. */
  lemma WeaveFirstToken(s: string, e: nat, gaps: seq<string>, ts: seq<string>)
    requires 0 < e <= |s| && (e == |s| || IsSpace(s[e]))
    requires SplitInto(s[e..], gaps, ts) && forall k :: 0 <= k < |ts| ==> ts[k] != [] && NoSpace(ts[k])
    ensures SplitInto(s, [[]] + gaps, [s[..e]] + ts)
  {
    assert Weave([[]] + gaps, [s[..e]] + ts) == s[..e] + Weave(gaps, ts);
    assert s == s[..e] + s[e..];
  }

  /** Conversely, any way of cutting s into whitespace gaps and non-empty tokens without
      whitespace, with a non-empty gap between two tokens, yields the tokens of `str.split()`. */
  lemma {:induction false} SplitIsTokens(s: string, gaps: seq<string>, ts: seq<string>)
    requires SplitInto(s, gaps, ts)
    requires forall k :: 0 <= k < |ts| ==> ts[k] != [] && NoSpace(ts[k])
    ensures ts == Tokens(s)
    decreases |s|
  {
    if gaps[0] != [] {
      var gaps' := SplitDropSpace(s, gaps, ts);
      SplitIsTokens(s[1..], gaps', ts);
    } else if ts != [] {
      var e := SplitDropToken(s, gaps, ts);
      SplitIsTokens(s[e..], gaps[1..], ts[1..]);
      assert Tokens(s) == [s[..e]] + Tokens(s[e..]);
    }
  }

  /** A split whose first gap is not empty starts with whitespace, and the rest of the text is
      split the same way. */
  lemma SplitDropSpace(s: string, gaps: seq<string>, ts: seq<string>) returns (gaps': seq<string>)
    requires SplitInto(s, gaps, ts) && gaps[0] != []
    ensures s != [] && IsSpace(s[0]) && SplitInto(s[1..], gaps', ts)
  {
    gaps' := [gaps[0][1..]] + gaps[1..];
    WeaveLonger(gaps[0][0], gaps', ts);
    assert [gaps[0][0]] + gaps'[0] == gaps[0] && gaps'[1..] == gaps[1..];
    forall k | 0 < k < |ts| ensures gaps'[k] != [] {
      assert gaps'[k] == gaps[k];
    }
    forall k | 0 <= k < |gaps'| ensures AllSpace(gaps'[k]) {
      assert k > 0 ==> gaps'[k] == gaps[k];
    }
  }

  /** A split whose first gap is empty starts with its first token, which is the maximal
      non-whitespace run at the start of s; the rest of the text is split by the rest. */
  lemma SplitDropToken(s: string, gaps: seq<string>, ts: seq<string>) returns (e: nat)
    requires SplitInto(s, gaps, ts) && gaps[0] == [] && ts != []
    requires forall k :: 0 <= k < |ts| ==> ts[k] != [] && NoSpace(ts[k])
    ensures e == |ts[0]| == RunEnd(s, 0, IsNonSpace) <= |s|
    ensures s != [] && !IsSpace(s[0]) && s[..e] == ts[0]
    ensures SplitInto(s[e..], gaps[1..], ts[1..])
  {
    e := |ts[0]|;
    var rest := Weave(gaps[1..], ts[1..]);
    assert s == ts[0] + rest;
    assert s[..e] == ts[0] && s[e..] == rest;
    if e < |s| {
      assert s[e] == rest[0];
      if |ts| > 1 {
        assert gaps[1] != [];
      }
    }
    RunEndUnique(s, 0, IsNonSpace, e);
    forall k | 0 < k < |ts| - 1 ensures gaps[1..][k] != [] {
      assert gaps[1..][k] == gaps[k + 1];
    }
  }

  /** One more whitespace character in front of the first gap. */
  lemma WeaveLonger(c: char, gaps: seq<string>, ts: seq<string>)
    requires |gaps| == |ts| + 1
    ensures Weave([[c] + gaps[0]] + gaps[1..], ts) == [c] + Weave(gaps, ts)
  {
    var gaps' := [[c] + gaps[0]] + gaps[1..];
    assert gaps'[1..] == gaps[1..];
  }

  // ---------------------------------------------------------------------------------------
  // Stripping: str.strip()

  function StripLeft(s: string): (r: string)
    ensures |r| <= |s| && r == s[|s| - |r|..]
    ensures AllSpace(s[..|s| - |r|])
    ensures r == [] || !IsSpace(r[0])
    decreases |s|
  {
    if s != [] && IsSpace(s[0]) then StripLeft(s[1..]) else s
  }

  function StripRight(s: string): (r: string)
    ensures |r| <= |s| && r == s[..|r|]
    ensures AllSpace(s[|r|..])
    ensures r == [] || !IsSpace(r[|r| - 1])
    decreases |s|
  {
    if s != [] && IsSpace(s[|s| - 1]) then
      var init := s[..|s| - 1];
      var r := StripRight(init);
      forall j | 0 <= j < |s| - |r| ensures IsSpace(s[|r|..][j]) {
        if j < |init| - |r| {
          assert s[|r|..][j] == init[|r|..][j];
        }
      }
      r
    else s
  }

  /** `str.strip()`: s without its leading and trailing whitespace. */
  function Strip(s: string): (r: string)
    ensures |r| <= |s|
    ensures Trimmed(r)
    ensures r == [] <==> AllSpace(s)
  {
    var l := StripLeft(s);
    var r := StripRight(l);
    assert r == [] ==> AllSpace(l) by {
      if r == [] {
        assert l[|r|..] == l;
      }
    }
    assert AllSpace(l) ==> AllSpace(s) by {
      if AllSpace(l) {
        assert l == [];
        assert s == s[..|s| - |l|];
      }
    }
    r
  }

  // ---------------------------------------------------------------------------------------
  // Sentences: re.split(r'[.!?]+', s), stripped, empties dropped

  /** `re.split(r'[.!?]+', s)`: the pieces between runs of terminators (at least one piece). */
  function Pieces(s: string): (ps: seq<string>)
    ensures |ps| >= 1
    ensures forall k, j :: 0 <= k < |ps| && 0 <= j < |ps[k]| ==> !IsTerminator(ps[k][j])
    decreases |s|
  {
    var k := RunEnd(s, 0, IsNotTerminator);
    if k == |s| then [s]
    else
      var e := RunEnd(s, k, IsTerminator);
      [s[..k]] + Pieces(s[e..])
  }

  predicate IsNotTerminator(c: char) {
    !IsTerminator(c)
  }

  function StrippedNonEmpty(ps: seq<string>): (ss: seq<string>)
    ensures |ss| <= |ps|
    ensures forall k :: 0 <= k < |ss| ==> ss[k] != [] && Trimmed(ss[k])
  {
    if ps == [] then []
    else
      var rest := StrippedNonEmpty(ps[1..]);
      var t := Strip(ps[0]);
      if t == [] then rest
      else
        ConsNonEmptyTrimmed(t, rest);
        [t] + rest
  }

  lemma ConsNonEmptyTrimmed(t: string, rest: seq<string>)
    requires t != [] && Trimmed(t)
    requires forall k :: 0 <= k < |rest| ==> rest[k] != [] && Trimmed(rest[k])
    ensures forall k :: 0 <= k < |rest| + 1 ==> ([t] + rest)[k] != [] && Trimmed(([t] + rest)[k])
  {
  }

  /** `[s.strip() for s in re.split(r'[.!?]+', content) if s.strip()]`. */
  function Sentences(content: string): seq<string> {
    StrippedNonEmpty(Pieces(content))
  }

  // ---------------------------------------------------------------------------------------
  // Whitespace repair

  /** No whitespace other than ' ', and never two whitespace characters in a row. */
  ghost predicate SingleSpaced(s: string) {
    && (forall j :: 0 <= j < |s| && IsSpace(s[j]) ==> s[j] == ' ')
    && (forall j, k :: 0 <= j < k < |s| && k == j + 1 ==> !(IsSpace(s[j]) && IsSpace(s[k])))
  }

  /** No whitespace right before any of `.,!?;:`. */
  ghost predicate NoSpaceBeforePunct(s: string) {
    forall j, k :: 0 <= j < k < |s| && k == j + 1 ==> !(IsSpace(s[j]) && IsClosingPunct(s[k]))
  }

  predicate Trimmed(s: string) {
    s == [] || (!IsSpace(s[0]) && !IsSpace(s[|s| - 1]))
  }

  /** `re.sub(r'\s+', ' ', s)`: every run of whitespace becomes one space. */
  function CollapseSpaces(s: string): (r: string)
    ensures SingleSpaced(r)
    ensures |r| <= |s|
    ensures s == [] <==> r == []
    ensures s != [] ==> r[0] == (if IsSpace(s[0]) then ' ' else s[0])
    decreases |s|
  {
    if s == [] then []
    else if IsSpace(s[0]) then
      var k := RunEnd(s, 0, IsSpace);
      [' '] + CollapseSpaces(s[k..])
    else
      [s[0]] + CollapseSpaces(s[1..])
  }

  /** `re.sub(r'\s+([.,!?;:])', r'\1', s)`: a run of whitespace followed by one of `.,!?;:`
      is deleted; other runs are kept as they are. */
  function DropSpaceBeforePunct(s: string): (r: string)
    ensures NoSpaceBeforePunct(r)
    ensures |r| <= |s|
    ensures s == [] <==> r == []
    ensures s != [] && !IsSpace(s[0]) ==> r[0] == s[0]
    ensures s != [] && IsSpace(s[0]) ==> !IsWordChar(r[0])
    decreases |s|
  {
    if s == [] then []
    else if IsSpace(s[0]) then
      var k := RunEnd(s, 0, IsSpace);
      if k < |s| && IsClosingPunct(s[k]) then
        var x := DropSpaceBeforePunct(s[k + 1..]);
        ConsNoSpaceBeforePunct(s[k], x);
        [s[k]] + x
      else
        var x := DropSpaceBeforePunct(s[k..]);
        SpacesNoSpaceBeforePunct(s[..k], x);
        s[..k] + x
    else
      var x := DropSpaceBeforePunct(s[1..]);
      ConsNoSpaceBeforePunct(s[0], x);
      [s[0]] + x
  }

  lemma ConsNoSpaceBeforePunct(c: char, x: string)
    requires NoSpaceBeforePunct(x)
    requires IsSpace(c) ==> x == [] || !IsClosingPunct(x[0])
    ensures NoSpaceBeforePunct([c] + x)
  {
    var t := [c] + x;
    forall m, n | 0 <= m < n < |t| && n == m + 1 ensures !(IsSpace(t[m]) && IsClosingPunct(t[n])) {
      if m > 0 {
        assert t[m] == x[m - 1] && t[n] == x[n - 1];
      }
    }
  }

  lemma SpacesNoSpaceBeforePunct(a: string, x: string)
    requires AllSpace(a) && NoSpaceBeforePunct(x)
    requires x == [] || !IsClosingPunct(x[0])
    ensures NoSpaceBeforePunct(a + x)
  {
    var t := a + x;
    forall m, n | 0 <= m < n < |t| && n == m + 1 ensures !(IsSpace(t[m]) && IsClosingPunct(t[n])) {
      if n < |a| {
        assert t[n] == a[n];
      } else if m >= |a| {
        assert t[m] == x[m - |a|] && t[n] == x[n - |a|];
      } else {
        assert t[n] == x[0];
      }
    }
  }

  lemma ConsSingleSpaced(c: char, x: string)
    requires SingleSpaced(x)
    requires IsSpace(c) ==> c == ' ' && (x == [] || !IsSpace(x[0]))
    ensures SingleSpaced([c] + x)
  {
    var t := [c] + x;
    forall m | 0 <= m < |t| && IsSpace(t[m]) ensures t[m] == ' ' {
      if m > 0 {
        assert t[m] == x[m - 1];
      }
    }
    forall m, n | 0 <= m < n < |t| && n == m + 1 ensures !(IsSpace(t[m]) && IsSpace(t[n])) {
      if m > 0 {
        assert t[m] == x[m - 1] && t[n] == x[n - 1];
      }
    }
  }

  /** In single-spaced text a run of whitespace is one space. */
  lemma SpaceRunIsOne(s: string, k: nat)
    requires SingleSpaced(s) && s != [] && IsSpace(s[0]) && k == RunEnd(s, 0, IsSpace)
    ensures k == 1 && s[0] == ' ' && s[..k] == [' ']
  {
    if |s| > 1 {
      assert !(IsSpace(s[0]) && IsSpace(s[1]));
    }
    RunEndUnique(s, 0, IsSpace, 1);
  }

  lemma {:induction false} DropKeepsSingleSpaced(s: string)
    requires SingleSpaced(s)
    ensures SingleSpaced(DropSpaceBeforePunct(s))
    decreases |s|
  {
    if s == [] {
    } else if IsSpace(s[0]) {
      var k := RunEnd(s, 0, IsSpace);
      SpaceRunIsOne(s, k);
      if k < |s| && IsClosingPunct(s[k]) {
        SuffixKeepsSingleSpaced(s, k + 1);
        DropKeepsSingleSpaced(s[k + 1..]);
        ConsSingleSpaced(s[k], DropSpaceBeforePunct(s[k + 1..]));
      } else {
        SuffixKeepsSingleSpaced(s, 1);
        DropKeepsSingleSpaced(s[1..]);
        ConsSingleSpaced(' ', DropSpaceBeforePunct(s[1..]));
      }
    } else {
      SuffixKeepsSingleSpaced(s, 1);
      DropKeepsSingleSpaced(s[1..]);
      ConsSingleSpaced(s[0], DropSpaceBeforePunct(s[1..]));
    }
  }

  /** Taking a contiguous piece keeps the spacing properties. */
  lemma SliceKeepsSingleSpaced(s: string, t: string, i: nat)
    requires i + |t| <= |s| && forall m :: 0 <= m < |t| ==> t[m] == s[i + m]
    requires SingleSpaced(s)
    ensures SingleSpaced(t)
  {
    forall m, n | 0 <= m < n < |t| && n == m + 1 ensures !(IsSpace(t[m]) && IsSpace(t[n])) {
      assert t[m] == s[i + m] && t[n] == s[i + n];
    }
  }

  lemma SliceKeepsNoSpaceBeforePunct(s: string, t: string, i: nat)
    requires i + |t| <= |s| && forall m :: 0 <= m < |t| ==> t[m] == s[i + m]
    requires NoSpaceBeforePunct(s)
    ensures NoSpaceBeforePunct(t)
  {
    forall m, n | 0 <= m < n < |t| && n == m + 1 ensures !(IsSpace(t[m]) && IsClosingPunct(t[n])) {
      assert t[m] == s[i + m] && t[n] == s[i + n];
    }
  }

  lemma SuffixKeepsSingleSpaced(s: string, i: nat)
    requires i <= |s| && SingleSpaced(s)
    ensures SingleSpaced(s[i..])
  {
    SliceKeepsSingleSpaced(s, s[i..], i);
  }

  /** Strip(s) is the piece of s between its leading and trailing whitespace. */
  lemma StripIsSlice(s: string) returns (i: nat)
    ensures i + |Strip(s)| <= |s| && forall m :: 0 <= m < |Strip(s)| ==> Strip(s)[m] == s[i + m]
  {
    var l := StripLeft(s);
    var r := StripRight(l);
    i := |s| - |l|;
    assert forall m :: 0 <= m < |r| ==> r[m] == l[m];
    assert forall m :: 0 <= m < |l| ==> l[m] == s[i + m];
  }

  /** Stripping keeps the spacing properties. */
  lemma StripKeepsSingleSpaced(s: string)
    requires SingleSpaced(s)
    ensures SingleSpaced(Strip(s))
  {
    var i := StripIsSlice(s);
    SliceKeepsSingleSpaced(s, Strip(s), i);
  }

  lemma StripKeepsNoSpaceBeforePunct(s: string)
    requires NoSpaceBeforePunct(s)
    ensures NoSpaceBeforePunct(Strip(s))
  {
    var i := StripIsSlice(s);
    SliceKeepsNoSpaceBeforePunct(s, Strip(s), i);
  }

  /** The repair the filler and hedging cleaners run after deleting: collapse whitespace,
      remove whitespace before punctuation, strip. */
  function RepairSpacing(s: string): (r: string)
    ensures SingleSpaced(r) && NoSpaceBeforePunct(r) && Trimmed(r)
    ensures |r| <= |s|
  {
    var c := CollapseSpaces(s);
    var d := DropSpaceBeforePunct(c);
    DropKeepsSingleSpaced(c);
    StripKeepsSingleSpaced(d);
    StripKeepsNoSpaceBeforePunct(d);
    Strip(d)
  }

  // ---------------------------------------------------------------------------------------
  // Joining and numbers

  /** `sep.join(parts)`. */
  function Join(sep: string, parts: seq<string>): string {
    if parts == [] then ""
    else if |parts| == 1 then parts[0]
    else parts[0] + sep + Join(sep, parts[1..])
  }

  function DigitChar(d: nat): char
    requires d < 10
  {
    "0123456789"[d]
  }

  /** `str(n)` for a natural number. */
  function NatToString(n: nat): (s: string)
    ensures |s| >= 1
    decreases n
  {
    if n < 10 then [DigitChar(n)] else NatToString(n / 10) + [DigitChar(n % 10)]
  }

  /** `str(i)` for an integer. */
  function IntToString(i: int): string {
    if i < 0 then "-" + NatToString(-i) else NatToString(i)
  }
}
