/** The two passive-voice patterns of `PassiveVoiceAnalyzer`,
    `\b(is|are|was|were|be|been|being)\s+\w+ed\b` and the same with `en`, under
    `re.IGNORECASE`, with `findall` (leftmost, non-overlapping) and `search`.

    An auxiliary has to be followed by whitespace, so it must be a whole word; `\w+ed\b` then
    has to be the whole next word, at least three word characters long, ending in the suffix. */
module PassiveVoice {
  import opened Wrappers
  import opened TextPrimitives

  const Auxiliaries: seq<string> := ["is", "are", "was", "were", "be", "been", "being"]

  /** The lower-cased word is one of the auxiliaries from index k on; a search rather than a
      membership test on the literal list, which the verifier would otherwise expand at every
      use of `PassiveHere`. */
  predicate AuxiliaryFrom(w: string, k: nat)
    decreases |Auxiliaries| - k
  {
    k < |Auxiliaries| && (w == Auxiliaries[k] || AuxiliaryFrom(w, k + 1))
  }

  /** The search is membership in the rest of the list. */
  lemma {:induction false} AuxiliaryFromIsIn(w: string, k: nat)
    requires k <= |Auxiliaries|
    ensures AuxiliaryFrom(w, k) <==> w in Auxiliaries[k..]
    decreases |Auxiliaries| - k
  {
    if k < |Auxiliaries| {
      AuxiliaryFromIsIn(w, k + 1);
      assert Auxiliaries[k..] == [Auxiliaries[k]] + Auxiliaries[k + 1..];
    }
  }

  /** Where a match of the pattern with the given suffix ("ed" or "en") that starts at the
      beginning of s ends; pw says whether the character before s is a word character. */
  function PassiveHere(pw: bool, s: string, suffix: string): (e: Option<nat>)
    requires |suffix| == 2
    ensures e.Some? ==> 3 <= e.value <= |s| && IsWordChar(s[e.value - 1])
  {
    var a := RunEnd(s, 0, IsWordChar);
    if pw || a == 0 || !AuxiliaryFrom(LowerString(s[..a]), 0) || a == |s| || !IsSpace(s[a]) then None
    else
      var b := RunEnd(s, a, IsSpace);
      var c := RunEnd(s, b, IsWordChar);
      if c - b >= 3 && LowerString(s[c - 2..c]) == suffix then Some(c) else None
  }

  /** `len(pattern.findall(s))`, scanning the suffix s. */
  function CountTail(pw: bool, s: string, suffix: string): nat
    requires |suffix| == 2
    decreases |s|
  {
    if s == [] then 0
    else
      match PassiveHere(pw, s, suffix)
      case Some(e) => 1 + CountTail(true, s[e..], suffix)
      case None => CountTail(IsWordChar(s[0]), s[1..], suffix)
  }

  /** The number of passive phrases both patterns find (`passive_phrases_found`). */
  function CountPassive(s: string): nat {
    CountTail(false, s, "ed") + CountTail(false, s, "en")
  }

  /** `any(p.search(s) for p in PATTERNS)`. */
  predicate HasPassive(s: string) {
    CountTail(false, s, "ed") > 0 || CountTail(false, s, "en") > 0
  }

  /** The pattern with the given suffix matches s at position i. */
  predicate PassiveAt(s: string, suffix: string, i: nat)
    requires |suffix| == 2
  {
    i <= |s| && PassiveHere(if i == 0 then false else IsWordChar(s[i - 1]), s[i..], suffix).Some?
  }

  /** The pattern matches the suffix s at position i; pw says whether the character before s
      is a word character. Stepping one character at a time, as findall's scan does. */
  predicate PassiveIn(pw: bool, s: string, suffix: string, i: nat)
    requires |suffix| == 2
    decreases i
  {
    if i == 0 then PassiveHere(pw, s, suffix).Some?
    else s != [] && PassiveIn(IsWordChar(s[0]), s[1..], suffix, i - 1)
  }

  /** A match at position i is a match at the start of `s[i..]`, seen from the character
      before it. */
  lemma {:induction false} PassiveInAt(pw: bool, s: string, suffix: string, i: nat)
    requires |suffix| == 2
    ensures PassiveIn(pw, s, suffix, i) <==>
      i <= |s| && PassiveHere(if i == 0 then pw else IsWordChar(s[i - 1]), s[i..], suffix).Some?
    decreases i
  {
    if i == 0 {
      assert s[0..] == s;
    } else if s != [] {
      PassiveInAt(IsWordChar(s[0]), s[1..], suffix, i - 1);
      if i <= |s| {
        assert s[1..][i - 1..] == s[i..];
        if i > 1 {
          assert s[1..][i - 2] == s[i - 1];
        }
      }
    }
  }

  /** Where no match starts at the front of s, findall goes on from the next character. */
  lemma CountTailSkip(pw: bool, s: string, suffix: string)
    requires |suffix| == 2 && s != [] && PassiveHere(pw, s, suffix).None?
    ensures CountTail(pw, s, suffix) == CountTail(IsWordChar(s[0]), s[1..], suffix)
  {
  }

  /** Wherever the pattern matches, findall finds at least one match. */
  lemma {:induction false} MatchFound(pw: bool, s: string, suffix: string, i: nat)
    requires |suffix| == 2 && PassiveIn(pw, s, suffix, i)
    ensures CountTail(pw, s, suffix) > 0
    decreases i
  {
    var here := PassiveHere(pw, s, suffix);
    if here.None? {
      assert i != 0 && s != [];
      MatchFound(IsWordChar(s[0]), s[1..], suffix, i - 1);
      CountTailSkip(pw, s, suffix);
    } else {
      assert s != [];
    }
  }

  /** Every count findall reports comes from a real match. */
  lemma {:induction false} FoundMatch(pw: bool, s: string, suffix: string) returns (i: nat)
    requires |suffix| == 2 && CountTail(pw, s, suffix) > 0
    ensures PassiveIn(pw, s, suffix, i)
    decreases |s|
  {
    assert s != [];
    var here := PassiveHere(pw, s, suffix);
    if here.Some? {
      i := 0;
    } else {
      CountTailSkip(pw, s, suffix);
      var i' := FoundMatch(IsWordChar(s[0]), s[1..], suffix);
      i := i' + 1;
    }
  }

  /** A sentence is classified passive exactly when one of the two patterns matches somewhere
      in it. */
  lemma HasPassiveIffMatch(s: string)
    ensures HasPassive(s) <==> exists i: nat :: PassiveAt(s, "ed", i) || PassiveAt(s, "en", i)
  {
    if CountTail(false, s, "ed") > 0 {
      var i := FoundMatch(false, s, "ed");
      PassiveInAt(false, s, "ed", i);
      assert PassiveAt(s, "ed", i);
    } else if CountTail(false, s, "en") > 0 {
      var i := FoundMatch(false, s, "en");
      PassiveInAt(false, s, "en", i);
      assert PassiveAt(s, "en", i);
    }
    if i: nat :| PassiveAt(s, "ed", i) || PassiveAt(s, "en", i) {
      if PassiveAt(s, "ed", i) {
        PassiveInAt(false, s, "ed", i);
        MatchFound(false, s, "ed", i);
      } else {
        PassiveInAt(false, s, "en", i);
        MatchFound(false, s, "en", i);
      }
    }
  }

  /** The sentences some pattern matches, in order. */
  function PassiveSentences(sentences: seq<string>): (ps: seq<string>)
    ensures |ps| <= |sentences|
    ensures forall k :: 0 <= k < |ps| ==> HasPassive(ps[k]) && ps[k] in sentences
  {
    if sentences == [] then []
    else
      var rest := PassiveSentences(sentences[1..]);
      if HasPassive(sentences[0]) then [sentences[0]] + rest else rest
  }

  /** Every sentence the patterns match is kept. */
  lemma {:induction false} PassiveSentencesComplete(sentences: seq<string>, k: nat)
    requires k < |sentences| && HasPassive(sentences[k])
    ensures sentences[k] in PassiveSentences(sentences)
  {
    if k > 0 {
      PassiveSentencesComplete(sentences[1..], k - 1);
    }
  }
}
