/** `WhitespaceCleaner`: tabs become spaces, runs of spaces and of blank lines are squeezed,
    Windows line endings become `\n`, and the text is stripped. Each step is a function on
    strings; the tool reassigns its working string step by step. */
module Whitespace {
  import opened TextPrimitives
  import opened Base

  /** Never two spaces in a row. */
  predicate NoDoubleSpace(s: string)
    decreases |s|
  {
    |s| < 2 || (!(s[0] == ' ' && s[1] == ' ') && NoDoubleSpace(s[1..]))
  }

  /** Never three newlines in a row: at most one blank line between two lines. */
  predicate NoBlankRun(s: string)
    decreases |s|
  {
    |s| < 3 || (!(s[0] == '\n' && s[1] == '\n' && s[2] == '\n') && NoBlankRun(s[1..]))
  }

  /** No `\r\n` line ending. */
  predicate NoCrlf(s: string)
    decreases |s|
  {
    |s| < 2 || (!(s[0] == '\r' && s[1] == '\n') && NoCrlf(s[1..]))
  }

  /** s with every occurrence of c deleted: what a step that only deletes c leaves alone. */
  function Without(s: string, c: char): string {
    if s == [] then [] else (if s[0] == c then [] else [s[0]]) + Without(s[1..], c)
  }

  // ---------------------------------------------------------------------------------------
  // The steps

  /** `s.replace('\t', ' ')`: every tab becomes a space, every other character stays put. */
  function TabsToSpaces(s: string): (r: string)
    ensures |r| == |s| && '\t' !in r
    ensures forall j :: 0 <= j < |s| ==> r[j] == (if s[j] == '\t' then ' ' else s[j])
  {
    if s == [] then [] else [if s[0] == '\t' then ' ' else s[0]] + TabsToSpaces(s[1..])
  }

  /** `re.sub(r' +', ' ', s)`: a run of spaces becomes one space (the last of the run is kept). */
  function SqueezeSpaces(s: string): (r: string)
    ensures NoDoubleSpace(r) && |r| <= |s|
    ensures s != [] ==> r != [] && r[0] == s[0]
    ensures '\t' !in s ==> '\t' !in r
    ensures '\r' !in s ==> '\r' !in r
    decreases |s|
  {
    if s == [] then []
    else if |s| >= 2 && s[0] == ' ' && s[1] == ' ' then SqueezeSpaces(s[1..])
    else [s[0]] + SqueezeSpaces(s[1..])
  }

  /** `re.sub(r'\n\n+', '\n\n', s)`: a run of two or more newlines becomes exactly two. */
  function SqueezeNewlines(s: string): (r: string)
    ensures NoBlankRun(r) && |r| <= |s|
    ensures s != [] ==> r != [] && r[0] == s[0]
    ensures |s| >= 2 ==> |r| >= 2 && r[1] == s[1]
    ensures '\t' !in s ==> '\t' !in r
    ensures '\r' !in s ==> '\r' !in r
    decreases |s|
  {
    if s == [] then []
    else if |s| >= 3 && s[0] == '\n' && s[1] == '\n' && s[2] == '\n' then SqueezeNewlines(s[1..])
    else [s[0]] + SqueezeNewlines(s[1..])
  }

  /** `s.replace('\r\n', '\n')`, scanning left to right. */
  function CrlfToLf(s: string): (r: string)
    ensures |r| <= |s|
    ensures '\t' !in s ==> '\t' !in r
    ensures '\r' !in s ==> '\r' !in r
    decreases |s|
  {
    if s == [] then []
    else if |s| >= 2 && s[0] == '\r' && s[1] == '\n' then CrlfToLf(s[1..])
    else [s[0]] + CrlfToLf(s[1..])
  }

  /** Deleting newlines never brings two spaces together. */
  lemma {:induction false} SqueezeNewlinesKeepsNoDoubleSpace(s: string)
    requires NoDoubleSpace(s)
    ensures NoDoubleSpace(SqueezeNewlines(s))
    decreases |s|
  {
    if s != [] {
      SqueezeNewlinesKeepsNoDoubleSpace(s[1..]);
      if !(|s| >= 3 && s[0] == '\n' && s[1] == '\n' && s[2] == '\n') {
        assert ([s[0]] + SqueezeNewlines(s[1..]))[1..] == SqueezeNewlines(s[1..]);
      }
    }
  }

  /** The first character of the converted text. */
  lemma CrlfToLfHead(s: string)
    requires s != []
    ensures CrlfToLf(s) != []
    ensures CrlfToLf(s)[0] == (if |s| >= 2 && s[0] == '\r' && s[1] == '\n' then '\n' else s[0])
  {
    if |s| >= 2 && s[0] == '\r' && s[1] == '\n' {
      assert s[1..] != [] && s[1..][0] == '\n';
      CrlfToLfHead(s[1..]);
    }
  }

  /** Deleting the `\r` of a `\r\n` never brings two spaces together. */
  lemma {:induction false} CrlfToLfKeepsNoDoubleSpace(s: string)
    requires NoDoubleSpace(s)
    ensures NoDoubleSpace(CrlfToLf(s))
    decreases |s|
  {
    if s != [] {
      CrlfToLfKeepsNoDoubleSpace(s[1..]);
      if !(|s| >= 2 && s[0] == '\r' && s[1] == '\n') && |s| >= 2 {
        CrlfToLfHead(s[1..]);
        assert ([s[0]] + CrlfToLf(s[1..]))[1..] == CrlfToLf(s[1..]);
      }
    }
  }

  // ---------------------------------------------------------------------------------------
  // What each step leaves alone

  /** Text without tabs is left as it is. */
  lemma TabsToSpacesFixed(s: string)
    requires '\t' !in s
    ensures TabsToSpaces(s) == s
  {
    assert forall j :: 0 <= j < |s| ==> TabsToSpaces(s)[j] == s[j];
  }

  /** Text without a double space is left as it is. */
  lemma {:induction false} SqueezeSpacesFixed(s: string)
    requires NoDoubleSpace(s)
    ensures SqueezeSpaces(s) == s
    decreases |s|
  {
    if s != [] {
      SqueezeSpacesFixed(s[1..]);
      assert s == [s[0]] + s[1..];
    }
  }

  /** Only spaces are deleted: every other character survives, in order. */
  lemma {:induction false} SqueezeSpacesOnlySpaces(s: string)
    ensures Without(SqueezeSpaces(s), ' ') == Without(s, ' ')
    decreases |s|
  {
    if s != [] {
      SqueezeSpacesOnlySpaces(s[1..]);
      if !(|s| >= 2 && s[0] == ' ' && s[1] == ' ') {
        WithoutCons(s[0], SqueezeSpaces(s[1..]), ' ');
      }
    }
  }

  /** Text without a run of three newlines is left as it is. */
  lemma {:induction false} SqueezeNewlinesFixed(s: string)
    requires NoBlankRun(s)
    ensures SqueezeNewlines(s) == s
    decreases |s|
  {
    if s != [] {
      SqueezeNewlinesFixed(s[1..]);
      assert s == [s[0]] + s[1..];
    }
  }

  /** Only newlines are deleted. */
  lemma {:induction false} SqueezeNewlinesOnlyNewlines(s: string)
    ensures Without(SqueezeNewlines(s), '\n') == Without(s, '\n')
    decreases |s|
  {
    if s != [] {
      SqueezeNewlinesOnlyNewlines(s[1..]);
      if !(|s| >= 3 && s[0] == '\n' && s[1] == '\n' && s[2] == '\n') {
        WithoutCons(s[0], SqueezeNewlines(s[1..]), '\n');
      }
    }
  }

  /** Text without a `\r\n` is left as it is. */
  lemma {:induction false} CrlfToLfFixed(s: string)
    requires NoCrlf(s)
    ensures CrlfToLf(s) == s
    decreases |s|
  {
    if s != [] {
      CrlfToLfFixed(s[1..]);
      assert s == [s[0]] + s[1..];
    }
  }

  /** Only carriage returns are deleted. */
  lemma {:induction false} CrlfToLfOnlyReturns(s: string)
    ensures Without(CrlfToLf(s), '\r') == Without(s, '\r')
    decreases |s|
  {
    if s != [] {
      CrlfToLfOnlyReturns(s[1..]);
      if !(|s| >= 2 && s[0] == '\r' && s[1] == '\n') {
        WithoutCons(s[0], CrlfToLf(s[1..]), '\r');
      }
    }
  }

  /** Text without a carriage return has no `\r\n`. */
  lemma {:induction false} NoReturnNoCrlf(s: string)
    requires '\r' !in s
    ensures NoCrlf(s)
    decreases |s|
  {
    if s != [] {
      assert forall c :: c in s[1..] ==> c in s;
      NoReturnNoCrlf(s[1..]);
    }
  }

  lemma WithoutCons(c: char, x: string, d: char)
    ensures Without([c] + x, d) == (if c == d then [] else [c]) + Without(x, d)
  {
    assert ([c] + x)[1..] == x;
  }

  // ---------------------------------------------------------------------------------------
  // Stripping keeps the properties

  lemma {:induction false} SuffixKeeps(s: string, i: nat)
    requires i <= |s|
    ensures NoDoubleSpace(s) ==> NoDoubleSpace(s[i..])
    ensures NoBlankRun(s) ==> NoBlankRun(s[i..])
    decreases i
  {
    if i > 0 {
      SuffixKeeps(s[1..], i - 1);
      assert s[1..][i - 1..] == s[i..];
    }
  }

  lemma {:induction false} PrefixKeeps(s: string, i: nat)
    requires i <= |s|
    ensures NoDoubleSpace(s) ==> NoDoubleSpace(s[..i])
    ensures NoBlankRun(s) ==> NoBlankRun(s[..i])
    decreases i
  {
    if i > 0 {
      PrefixKeeps(s[1..], i - 1);
      assert s[..i][1..] == s[1..][..i - 1];
    }
  }

  /** `str.strip()` takes a piece of the text, so it keeps both spacing properties and adds
      no tab and no carriage return. */
  lemma StripKeeps(s: string)
    ensures NoDoubleSpace(s) ==> NoDoubleSpace(Strip(s))
    ensures NoBlankRun(s) ==> NoBlankRun(Strip(s))
    ensures '\t' !in s ==> '\t' !in Strip(s)
    ensures '\r' !in s ==> '\r' !in Strip(s)
  {
    var l := StripLeft(s);
    SuffixKeeps(s, |s| - |l|);
    PrefixKeeps(l, |StripRight(l)|);
    var i := StripIsSlice(s);
    forall m | 0 <= m < |Strip(s)| ensures Strip(s)[m] == s[i + m] {
    }
  }

  /** Trimmed text is left as it is by `str.strip()`. */
  lemma StripFixed(s: string)
    requires Trimmed(s)
    ensures Strip(s) == s
  {
  }

  // ---------------------------------------------------------------------------------------
  // The normaliser

  /** The normaliser, its steps in the source's order: no tab, no double space, no whitespace
      at either end. Text without carriage returns also comes out with at most one blank line
      in a row; with `\r\n` line endings the conversion comes after the blank-line squeeze
      (see `CrlfBlankLinesSurvive`). */
  function Normalized(content: string): (r: string)
    ensures '\t' !in r && NoDoubleSpace(r) && Trimmed(r) && |r| <= |content|
    ensures '\r' !in content ==> '\r' !in r && NoBlankRun(r)
  {
    var tabs := TabsToSpaces(content);
    assert '\r' !in content ==> '\r' !in tabs;
    var spaces := SqueezeSpaces(tabs);
    assert '\t' !in spaces;
    var lines := SqueezeNewlines(spaces);
    assert '\t' !in lines;
    var lf := CrlfToLf(lines);
    assert '\t' !in lf;
    SqueezeNewlinesKeepsNoDoubleSpace(spaces);
    CrlfToLfKeepsNoDoubleSpace(lines);
    assert '\r' !in content ==> lf == lines by {
      if '\r' !in content {
        NoReturnNoCrlf(lines);
        CrlfToLfFixed(lines);
      }
    }
    StripKeeps(lf);
    Strip(lf)
  }

  /** Text with Windows line endings and two blank lines. */
  const CrlfSample := "a\r\n\r\n\r\nb"

  /** With Windows line endings the squeeze sees no `\n\n` and the blank lines survive, so the
      result still holds a run of three newlines and a second pass changes it: the normaliser
      is not idempotent. */
  lemma CrlfBlankLinesSurvive()
    ensures Normalized(CrlfSample) == "a\n\n\nb"
    ensures !NoBlankRun(Normalized(CrlfSample))
    ensures Normalized(Normalized(CrlfSample)) == "a\n\nb"
  {
    FirstPass();
    ThreeNewlines();
    SecondPass();
  }

  lemma FirstPass()
    ensures Normalized(CrlfSample) == "a\n\n\nb"
  {
    SampleFirstSteps();
    SqueezeNewlinesFixedOnSample();
    CrlfOfSample();
    SampleResultsTrimmed();
    NormalizerSteps(CrlfSample, CrlfSample, "a\n\n\nb");
  }

  /** The normaliser, given what each of its steps does to s. */
  lemma NormalizerSteps(s: string, t: string, u: string)
    requires TabsToSpaces(s) == s && SqueezeSpaces(s) == s
    requires SqueezeNewlines(s) == t && CrlfToLf(t) == u && Trimmed(u)
    ensures Normalized(s) == u
  {
    StripFixed(u);
  }

  lemma SampleResultsTrimmed()
    ensures Trimmed("a\n\n\nb") && Trimmed("a\n\nb")
  {
  }

  lemma ThreeNewlines()
    ensures !NoBlankRun("a\n\n\nb")
  {
    assert "a\n\n\nb"[1..] == "\n\n\nb";
  }

  lemma SampleFirstSteps()
    ensures TabsToSpaces(CrlfSample) == CrlfSample && SqueezeSpaces(CrlfSample) == CrlfSample
  {
    SampleHasNoTab();
    TabsToSpacesFixed(CrlfSample);
    SampleHasNoDoubleSpace();
    SqueezeSpacesFixed(CrlfSample);
  }

  lemma SampleHasNoTab()
    ensures '\t' !in CrlfSample
  {
  }

  lemma SampleHasNoDoubleSpace()
    ensures NoDoubleSpace(CrlfSample)
  {
  }

  lemma SqueezeNewlinesFixedOnSample()
    ensures SqueezeNewlines(CrlfSample) == CrlfSample
  {
    SqueezeNewlinesFixed(CrlfSample);
  }

  lemma SecondPass()
    ensures Normalized("a\n\n\nb") == "a\n\nb"
  {
    SecondPassFirstSteps();
    SqueezeNewlinesOfSample();
    CrlfOfResult();
    SampleResultsTrimmed();
    NormalizerSteps("a\n\n\nb", "a\n\nb", "a\n\nb");
  }

  lemma CrlfOfResult()
    ensures CrlfToLf("a\n\nb") == "a\n\nb"
  {
    CrlfToLfFixed("a\n\nb");
  }

  lemma SecondPassFirstSteps()
    ensures TabsToSpaces("a\n\n\nb") == "a\n\n\nb" && SqueezeSpaces("a\n\n\nb") == "a\n\n\nb"
  {
    TabsToSpacesFixed("a\n\n\nb");
    SqueezeSpacesFixed("a\n\n\nb");
  }

  // The conversion and the squeeze on the sample, one character at a time.

  lemma CrlfOfSample()
    ensures CrlfToLf(CrlfSample) == "a\n\n\nb"
  {
    SampleSplit();
    CrlfOfSample1();
  }

  /** How the strings of the sample computation split into a first character and the rest. */
  lemma SampleSplit()
    ensures CrlfSample[0] == 'a' && CrlfSample[1..] == "\r\n\r\n\r\nb"
    ensures "a\n\n\nb" == ['a'] + "\n\n\nb"
    ensures "\n\r\n\r\nb"[1..] == "\r\n\r\nb" && "\n\n\nb" == ['\n'] + "\n\nb"
    ensures "\n\r\nb"[1..] == "\r\nb" && "\n\nb" == ['\n'] + "\nb"
  {
  }

  lemma CrlfOfSample1()
    ensures CrlfToLf("\r\n\r\n\r\nb") == "\n\n\nb"
  {
    CrlfOfSample2();
  }

  lemma CrlfOfSample2()
    ensures CrlfToLf("\n\r\n\r\nb") == "\n\n\nb"
  {
    SampleSplit();
    CrlfOfSample3();
  }

  lemma CrlfOfSample3()
    ensures CrlfToLf("\r\n\r\nb") == "\n\nb"
  {
    CrlfOfSample4();
  }

  lemma CrlfOfSample4()
    ensures CrlfToLf("\n\r\nb") == "\n\nb"
  {
    SampleSplit();
    CrlfOfSample5();
  }

  lemma CrlfOfSample5()
    ensures CrlfToLf("\r\nb") == "\nb"
  {
    assert CrlfToLf("\nb") == "\nb";
  }

  lemma SqueezeNewlinesOfSample()
    ensures SqueezeNewlines("a\n\n\nb") == "a\n\nb"
  {
    SqueezeNewlinesOfSample1();
  }

  lemma SqueezeNewlinesOfSample1()
    ensures SqueezeNewlines("\n\n\nb") == "\n\nb"
  {
    SqueezeNewlinesOfSample2();
  }

  lemma SqueezeNewlinesOfSample2()
    ensures SqueezeNewlines("\n\nb") == "\n\nb"
  {
    assert SqueezeNewlines("\nb") == "\nb";
  }

  /** For text without carriage returns a second pass changes nothing. */
  lemma NormalizedIdempotent(content: string)
    requires '\r' !in content
    ensures Normalized(Normalized(content)) == Normalized(content)
  {
    var r := Normalized(content);
    TabsToSpacesFixed(r);
    SqueezeSpacesFixed(r);
    SqueezeNewlinesFixed(r);
    NoReturnNoCrlf(r);
    CrlfToLfFixed(r);
    StripFixed(r);
  }

  // ---------------------------------------------------------------------------------------
  // The tool

  datatype WhitespaceReport = WhitespaceReport(original: string, normalized: string, charactersRemoved: int) {
    function Data(): Dict {
      [("original_content", VStr(original)), ("normalized_content", VStr(normalized)),
       ("characters_removed", VInt(charactersRemoved))]
    }
  }

  /** `WhitespaceCleaner.execute(content)`: the normalised text and how many characters the
      normalisation removed, which is never negative. */
  function WhitespaceOf(content: string): (r: WhitespaceReport)
    ensures r.original == content
    ensures '\t' !in r.normalized && NoDoubleSpace(r.normalized) && Trimmed(r.normalized)
    ensures '\r' !in content ==> NoBlankRun(r.normalized)
    ensures r.charactersRemoved == |content| - |r.normalized| >= 0
  {
    var normalized := Normalized(content);
    WhitespaceReport(content, normalized, |content| - |normalized|)
  }

  /** `WhitespaceCleaner.execute`: the working string is reassigned step by step. */
  method NormalizeWhitespace(content: string) returns (r: WhitespaceReport)
    ensures r == WhitespaceOf(content)
  {
    var normalized := content;
    normalized := TabsToSpaces(normalized);
    normalized := SqueezeSpaces(normalized);
    normalized := SqueezeNewlines(normalized);
    normalized := CrlfToLf(normalized);
    normalized := Strip(normalized);
    r := WhitespaceReport(content, normalized, |content| - |normalized|);
  }
}
