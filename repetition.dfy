/** `RepetitionAnalyzer`: count every window of `min_length` to 5 consecutive lower-cased
    words in a dict that keeps insertion order, keep the phrases seen more than once, sort them
    by count, most frequent first (Python's sort is stable, also with `reverse=True`), and
    report the first 20. */
module Repetition {
  import opened TextPrimitives
  import opened Base

  // ---------------------------------------------------------------------------------------
  // Windows

  /** `[w.lower() for w in content.split() if w.strip()]`: every token survives the filter. */
  function LowerWords(content: string): (ws: seq<string>)
    ensures |ws| == |Tokens(content)|
    ensures forall k :: 0 <= k < |ws| ==> ws[k] == LowerString(Tokens(content)[k])
  {
    var ts := Tokens(content);
    seq(|ts|, k requires 0 <= k < |ts| => LowerString(ts[k]))
  }

  /** A Python slice bound: a negative one counts from the end, then it is clipped to the
      sequence. */
  function SliceBound(x: int, n: nat): (b: nat)
    ensures b <= n
    ensures 0 <= x <= n ==> b == x
  {
    if x < 0 then (if x + n < 0 then 0 else x + n) else if x > n then n else x
  }

  /** `ws[a:b]` with Python's slicing rules; an empty range gives the empty list. */
  function PySlice<T>(ws: seq<T>, a: int, b: int): (r: seq<T>)
    ensures 0 <= a <= b <= |ws| ==> r == ws[a..b]
  {
    var lo, hi := SliceBound(a, |ws|), SliceBound(b, |ws|);
    if lo <= hi then ws[lo..hi] else []
  }

  /** The number of windows of one length: `len(range(len(words) - length + 1))`. */
  function WindowCount(n: nat, length: int): nat {
    if n - length + 1 < 0 then 0 else n - length + 1
  }

  /** `' '.join(words[i:i + length])`. */
  function Window(words: seq<string>, length: int, i: nat): string {
    Join(" ", PySlice(words, i, i + length))
  }

  /** The phrases of one length, in the order the inner loop visits them. */
  function WindowsOf(words: seq<string>, length: int): (ps: seq<string>)
    ensures |ps| == WindowCount(|words|, length)
  {
    seq(WindowCount(|words|, length), i requires 0 <= i < WindowCount(|words|, length) =>
      Window(words, length, i))
  }

  /** The phrases of the lengths lo, ..., hi - 1, in the order the two loops visit them. */
  function AllWindows(words: seq<string>, lo: int, hi: int): seq<string>
    decreases hi - lo
  {
    if lo >= hi then [] else AllWindows(words, lo, hi - 1) + WindowsOf(words, hi - 1)
  }

  /** Every phrase `RepetitionAnalyzer` counts, in counting order. */
  function Phrases(content: string, minLength: int): seq<string> {
    AllWindows(LowerWords(content), minLength, 6)
  }

  // ---------------------------------------------------------------------------------------
  // The tally: a dict from phrase to count that remembers insertion order

  datatype Entry = Entry(phrase: string, count: nat)

  /** The position of p's entry, or |t| when there is none. */
  function Find(t: seq<Entry>, p: string): (j: nat)
    ensures j <= |t|
    ensures j < |t| ==> t[j].phrase == p
    ensures forall k :: 0 <= k < j ==> t[k].phrase != p
  {
    if t == [] then 0
    else if t[0].phrase == p then 0
    else 1 + Find(t[1..], p)
  }

  /** `phrases.get(p, 0)`. */
  function Lookup(t: seq<Entry>, p: string): nat {
    var j := Find(t, p);
    if j < |t| then t[j].count else 0
  }

  /** `phrases[p] = phrases.get(p, 0) + 1`: an existing key keeps its place, a new one goes
      at the end. */
  function Bump(t: seq<Entry>, p: string): seq<Entry> {
    var j := Find(t, p);
    if j < |t| then t[j := Entry(p, t[j].count + 1)] else t + [Entry(p, 1)]
  }

  /** The dict after counting the phrases ps in order. */
  function Tally(ps: seq<string>): seq<Entry> {
    if ps == [] then [] else Bump(Tally(ps[..|ps| - 1]), ps[|ps| - 1])
  }

  predicate DistinctKeys(t: seq<Entry>) {
    forall i, j :: 0 <= i < j < |t| ==> t[i].phrase != t[j].phrase
  }

  /** Bumping p adds one to p's count and leaves every other count alone. */
  lemma LookupBump(t: seq<Entry>, p: string, q: string)
    ensures Lookup(Bump(t, p), q) == Lookup(t, q) + (if p == q then 1 else 0)
  {
    var u := Bump(t, p);
    var j, m := Find(t, p), Find(t, q);
    if j < |t| {
      assert forall k :: 0 <= k < |t| ==> u[k].phrase == t[k].phrase;
      FindIn(u, q, m);
    } else if p == q {
      FindIn(u, q, |t|);
    } else if m == |t| {
      FindIn(u, q, |u|);
    } else {
      FindIn(u, q, m);
    }
  }

  /** Find answers the first position of q's entry, or |u| when there is none. */
  lemma FindIn(u: seq<Entry>, q: string, m: nat)
    requires m <= |u|
    requires m < |u| ==> u[m].phrase == q
    requires forall k :: 0 <= k < m ==> u[k].phrase != q
    ensures Find(u, q) == m
  {
  }

  /** Counting one more phrase bumps it in the dict counted so far. */
  lemma TallySnoc(ps: seq<string>, p: string)
    ensures Tally(ps + [p]) == Bump(Tally(ps), p)
  {
    assert (ps + [p])[..|ps|] == ps;
  }

  /** Every phrase is counted exactly as often as it occurs. */
  lemma {:induction false} TallyCounts(ps: seq<string>, p: string)
    ensures Lookup(Tally(ps), p) == multiset(ps)[p]
  {
    if ps != [] {
      var init, last := ps[..|ps| - 1], ps[|ps| - 1];
      assert ps == init + [last];
      TallyCounts(init, p);
      LookupBump(Tally(init), last, p);
    }
  }

  /** Each phrase has one entry. */
  lemma {:induction false} TallyDistinct(ps: seq<string>)
    ensures DistinctKeys(Tally(ps))
  {
    if ps != [] {
      TallyDistinct(ps[..|ps| - 1]);
    }
  }

  /** Every entry has been counted at least once. */
  lemma {:induction false} TallyPositive(ps: seq<string>)
    ensures forall k :: 0 <= k < |Tally(ps)| ==> Tally(ps)[k].count >= 1
  {
    if ps != [] {
      var init := ps[..|ps| - 1];
      TallyPositive(init);
      var t, u := Tally(init), Tally(ps);
      forall k | 0 <= k < |u| ensures u[k].count >= 1 {
        if k < |t| {
          assert u[k].count >= t[k].count;
        }
      }
    }
  }

  /** The phrases of the lengths up to and including `length`. */
  lemma AllWindowsStep(words: seq<string>, lo: int, length: int)
    requires lo <= length
    ensures AllWindows(words, lo, length + 1) == AllWindows(words, lo, length) + WindowsOf(words, length)
  {
  }

  lemma SnocSlice<T>(before: seq<T>, ws: seq<T>, i: nat)
    requires i < |ws|
    ensures (before + ws[..i]) + [ws[i]] == before + ws[..i + 1]
  {
    assert ws[..i + 1] == ws[..i] + [ws[i]];
  }

  /** The inner counting loop, for one window length, continuing from the dict counted so
      far over the phrases `before`. */
  method CountWindows(words: seq<string>, length: int, counts0: seq<Entry>, ghost before: seq<string>)
    returns (counts: seq<Entry>)
    requires counts0 == Tally(before)
    ensures counts == Tally(before + WindowsOf(words, length))
  {
    ghost var ws := WindowsOf(words, length);
    counts := counts0;
    var i := 0;
    assert before + ws[..0] == before;
    while i < |words| - length + 1
      invariant 0 <= i <= |ws|
      invariant counts == Tally(before + ws[..i])
    {
      var phrase := Window(words, length, i);
      SnocSlice(before, ws, i);
      TallySnoc(before + ws[..i], phrase);
      counts := Bump(counts, phrase);
      i := i + 1;
    }
    assert ws[..i] == ws;
  }

  /** The two counting loops. */
  method CountPhrases(words: seq<string>, minLength: int) returns (counts: seq<Entry>)
    ensures counts == Tally(AllWindows(words, minLength, 6))
  {
    counts := [];
    var length := minLength;
    while length < 6
      invariant minLength <= length && (length <= 6 || length == minLength)
      invariant counts == Tally(AllWindows(words, minLength, length))
      decreases 6 - length
    {
      counts := CountWindows(words, length, counts, AllWindows(words, minLength, length));
      AllWindowsStep(words, minLength, length);
      length := length + 1;
    }
  }

  // ---------------------------------------------------------------------------------------
  // Filtering and the stable sort

  /** `[... for phrase, count in phrases.items() if count > 1]`. */
  function Repeated(t: seq<Entry>): (r: seq<Entry>)
    ensures forall k :: 0 <= k < |r| ==> r[k].count > 1 && r[k] in t
    ensures |r| <= |t|
  {
    if t == [] then []
    else
      var rest := Repeated(t[1..]);
      if t[0].count > 1 then [t[0]] + rest else rest
  }

  /** Every entry counted more than once is kept. */
  lemma {:induction false} RepeatedComplete(t: seq<Entry>, k: nat)
    requires k < |t| && t[k].count > 1
    ensures t[k] in Repeated(t)
  {
    if k > 0 {
      RepeatedComplete(t[1..], k - 1);
    }
  }

  predicate SortedDesc(s: seq<Entry>) {
    forall i, j :: 0 <= i < j < |s| ==> s[i].count >= s[j].count
  }

  /** The entries with count c, in order. */
  function WithCount(s: seq<Entry>, c: nat): seq<Entry> {
    if s == [] then []
    else if s[0].count == c then [s[0]] + WithCount(s[1..], c)
    else WithCount(s[1..], c)
  }

  /** Insert x into a sequence sorted by descending count, after every entry whose count is at
      least x's: equal counts keep their arrival order. */
  function Insert(s: seq<Entry>, x: Entry): seq<Entry> {
    if s == [] then [x]
    else if s[0].count >= x.count then [s[0]] + Insert(s[1..], x)
    else [x] + s
  }

  /** `sorted(xs, key=count, reverse=True)`, as an insertion sort. */
  function SortDesc(xs: seq<Entry>): seq<Entry> {
    if xs == [] then [] else Insert(SortDesc(xs[..|xs| - 1]), xs[|xs| - 1])
  }

  lemma {:induction false} InsertSorted(s: seq<Entry>, x: Entry)
    requires SortedDesc(s)
    ensures SortedDesc(Insert(s, x))
    ensures Insert(s, x) != [] && (Insert(s, x)[0] == x || (s != [] && Insert(s, x)[0] == s[0]))
  {
    if s != [] && s[0].count >= x.count {
      InsertSorted(s[1..], x);
    }
  }

  lemma {:induction false} InsertPermutes(s: seq<Entry>, x: Entry)
    ensures multiset(Insert(s, x)) == multiset(s) + multiset{x}
  {
    if s != [] && s[0].count >= x.count {
      InsertPermutes(s[1..], x);
      assert s == [s[0]] + s[1..];
    }
  }

  lemma {:induction false} WithCountAppend(a: seq<Entry>, b: seq<Entry>, c: nat)
    ensures WithCount(a + b, c) == WithCount(a, c) + WithCount(b, c)
  {
    if a == [] {
      assert a + b == b;
    } else {
      var ab := a + b;
      assert ab[0] == a[0] && ab[1..] == a[1..] + b;
      WithCountAppend(a[1..], b, c);
      var x, y := WithCount(a[1..], c), WithCount(b, c);
      if a[0].count == c {
        assert [a[0]] + (x + y) == ([a[0]] + x) + y;
      }
    }
  }

  /** In a sorted sequence nothing after an entry with count below x's has x's count. */
  lemma {:induction false} NoneWithCount(s: seq<Entry>, c: nat)
    requires SortedDesc(s) && (s == [] || s[0].count < c)
    ensures WithCount(s, c) == []
  {
    if s != [] {
      NoneWithCount(s[1..], c);
    }
  }

  /** Inserting x adds x at the end of its own count class and changes no other class. */
  lemma {:induction false} InsertWithCount(s: seq<Entry>, x: Entry, c: nat)
    requires SortedDesc(s)
    ensures WithCount(Insert(s, x), c) == WithCount(s, c) + (if x.count == c then [x] else [])
  {
    if s == [] {
    } else if s[0].count >= x.count {
      InsertWithCount(s[1..], x, c);
    } else {
      if x.count == c {
        NoneWithCount(s, c);
      }
    }
  }

  /** The sort orders by descending count. */
  lemma {:induction false} SortDescSorted(xs: seq<Entry>)
    ensures SortedDesc(SortDesc(xs))
  {
    if xs != [] {
      SortDescSorted(xs[..|xs| - 1]);
      InsertSorted(SortDesc(xs[..|xs| - 1]), xs[|xs| - 1]);
    }
  }

  /** The sort keeps every entry, as often as it occurs. */
  lemma {:induction false} SortDescPermutes(xs: seq<Entry>)
    ensures multiset(SortDesc(xs)) == multiset(xs)
  {
    if xs != [] {
      var init := xs[..|xs| - 1];
      assert xs == init + [xs[|xs| - 1]];
      SortDescPermutes(init);
      InsertPermutes(SortDesc(init), xs[|xs| - 1]);
    }
  }

  /** The sort is stable: the entries of each count keep their original order. */
  lemma {:induction false} SortDescStable(xs: seq<Entry>, c: nat)
    ensures WithCount(SortDesc(xs), c) == WithCount(xs, c)
  {
    if xs != [] {
      var init, x := xs[..|xs| - 1], xs[|xs| - 1];
      assert xs == init + [x];
      SortDescStable(init, c);
      SortDescSorted(init);
      InsertWithCount(SortDesc(init), x, c);
      WithCountAppend(init, [x], c);
    }
  }

  // ---------------------------------------------------------------------------------------
  // The report

  /** `repeated[:20]`. */
  function Top(s: seq<Entry>): (r: seq<Entry>)
    ensures |r| <= 20 && |r| <= |s| && r == s[..|r|]
    ensures |s| <= 20 ==> r == s
  {
    if |s| > 20 then s[..20] else s
  }

  datatype RepetitionReport = RepetitionReport(repeatedPhrases: nat, phrases: seq<Entry>, score: nat)
  {
    function Data(): Dict {
      [("repeated_phrases", VInt(repeatedPhrases)),
       ("phrases", VList(seq(|phrases|, k requires 0 <= k < |phrases| =>
          VDict([("phrase", VStr(phrases[k].phrase)), ("count", VInt(phrases[k].count))])))),
       ("repetition_score", VInt(score))]
    }
  }

  /** `RepetitionAnalyzer.execute(content, min_length)`. */
  function RepetitionOf(content: string, minLength: int): (r: RepetitionReport)
    ensures r.repeatedPhrases == |r.phrases| <= 20
    ensures r.score <= 10 && r.score == if |r.phrases| / 2 < 10 then |r.phrases| / 2 else 10
  {
    var counts := Tally(Phrases(content, minLength));
    var top := Top(SortDesc(Repeated(counts)));
    RepetitionReport(|top|, top, if |top| / 2 < 10 then |top| / 2 else 10)
  }

  /** `RepetitionAnalyzer.execute`: the counting loops, then the filter, the sort and the cut. */
  method DetectRepetition(content: string, minLength: int) returns (r: RepetitionReport)
    ensures r == RepetitionOf(content, minLength)
  {
    var counts := CountPhrases(LowerWords(content), minLength);
    var top := Top(SortDesc(Repeated(counts)));
    r := RepetitionReport(|top|, top, if |top| / 2 < 10 then |top| / 2 else 10);
  }

  /** Every entry of the top is an entry of the dict counted more than once, and the top is
      ordered by descending count. */
  lemma TopSound(t: seq<Entry>, k: nat)
    requires DistinctKeys(t) && k < |Top(SortDesc(Repeated(t)))|
    ensures var e := Top(SortDesc(Repeated(t)))[k]; Lookup(t, e.phrase) == e.count > 1
    ensures SortedDesc(Top(SortDesc(Repeated(t))))
  {
    var rep := Repeated(t);
    var sorted := SortDesc(rep);
    var e := sorted[k];
    SortDescPermutes(rep);
    SortDescSorted(rep);
    assert e in multiset(rep);
    var j :| 0 <= j < |t| && t[j] == e;
    FindIn(t, e.phrase, j);
  }

  /** Every reported phrase is a window of the text that occurs more than once, reported with
      its number of occurrences, and the reported counts never increase. */
  lemma RepetitionSound(content: string, minLength: int, k: nat)
    requires k < |RepetitionOf(content, minLength).phrases|
    ensures var ps := Phrases(content, minLength);
      var e := RepetitionOf(content, minLength).phrases[k];
      e.phrase in ps && e.count == multiset(ps)[e.phrase] > 1
    ensures SortedDesc(RepetitionOf(content, minLength).phrases)
  {
    var ps := Phrases(content, minLength);
    TallyDistinct(ps);
    TopSound(Tally(ps), k);
    TallyCounts(ps, RepetitionOf(content, minLength).phrases[k].phrase);
  }

  /** When at most 20 entries repeat, every entry counted more than once is in the top. */
  lemma TopComplete(t: seq<Entry>, p: string) returns (k: nat)
    requires Lookup(t, p) > 1 && |Repeated(t)| <= 20
    ensures k < |Top(SortDesc(Repeated(t)))| && Top(SortDesc(Repeated(t)))[k].phrase == p
  {
    var j := Find(t, p);
    RepeatedComplete(t, j);
    var sorted := SortDesc(Repeated(t));
    SortDescPermutes(Repeated(t));
    assert |sorted| == |multiset(sorted)| == |Repeated(t)|;
    assert t[j] in multiset(sorted);
    k :| k < |sorted| && sorted[k] == t[j];
  }

  /** When at most 20 phrases repeat, every window that occurs more than once is reported. */
  lemma RepetitionComplete(content: string, minLength: int, p: string)
    requires multiset(Phrases(content, minLength))[p] > 1
    requires |Repeated(Tally(Phrases(content, minLength)))| <= 20
    ensures exists k :: (0 <= k < |RepetitionOf(content, minLength).phrases| &&
      RepetitionOf(content, minLength).phrases[k].phrase == p)
  {
    TallyCounts(Phrases(content, minLength), p);
    var k := TopComplete(Tally(Phrases(content, minLength)), p);
    assert RepetitionOf(content, minLength).phrases[k].phrase == p;
  }
}
