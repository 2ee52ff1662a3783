/** The "Quick Analysis" box under the post-idea field: a word count, a
    character count and a three-tier length rating of the text. */
module InputSeoAnalyzer {
  import opened JsString

  // ------------------------------------------------- split(/\s+/) on text

  /** The first white-space index at or after `i` (or `|s|`). */
  function ScanWord(s: string, i: nat): (j: nat)
    requires i <= |s|
    ensures i <= j <= |s| && HasNoWhitespace(s[i..j])
    ensures j < |s| ==> IsWhitespace(s[j])
    decreases |s| - i
  {
    if i < |s| && !IsWhitespace(s[i]) then ScanWord(s, i + 1) else i
  }

  /** The first non-white-space index at or after `i` (or `|s|`). */
  function ScanBlank(s: string, i: nat): (j: nat)
    requires i <= |s|
    ensures i <= j <= |s| && IsBlank(s[i..j])
    ensures j < |s| ==> !IsWhitespace(s[j])
    ensures i < |s| && IsWhitespace(s[i]) ==> i < j
    decreases |s| - i
  {
    if i < |s| && IsWhitespace(s[i]) then ScanBlank(s, i + 1) else i
  }

  /** `s.split(/\s+/)`: the pieces between maximal runs of white space. A
      leading or trailing run yields an empty piece, and `""` splits to `[""]`. */
  function SplitOnWhitespace(s: string): (r: seq<string>)
    ensures |r| >= 1
    ensures forall k :: 0 <= k < |r| ==> HasNoWhitespace(r[k])
    decreases |s|
  {
    var i := ScanWord(s, 0);
    if i == |s| then
      assert s[0..i] == s;
      [s]
    else
      var j := ScanBlank(s, i);
      assert s[0..i] == s[..i];
      [s[..i]] + SplitOnWhitespace(s[j..])
  }

  /** `countWords`: `text.trim().split(/\s+/).filter(Boolean).length`. It
      counts the maximal runs of non-white-space characters. */
  function CountWords(text: string): (n: nat)
    ensures n == RunCount(text)
  {
    SplitOnWhitespaceCountsRuns(Trim(text));
    RunCountTrim(text);
    |FilterNonEmpty(SplitOnWhitespace(Trim(text)))|
  }

  // ------------------------------------------- the reference: runs of text

  /** A word starts at `i`: a non-blank character at the start or after a blank. */
  predicate StartsRun(s: string, i: nat)
    requires i < |s|
  {
    !IsWhitespace(s[i]) && (i == 0 || IsWhitespace(s[i - 1]))
  }

  /** The number of maximal runs of non-white-space characters in `s`,
      counted by where each run starts. */
  function RunCount(s: string): (n: nat)
    ensures n <= |s|
  {
    if s == [] then 0
    else RunCount(s[..|s| - 1]) + (if StartsRun(s, |s| - 1) then 1 else 0)
  }

  /** Two strings whose meeting point glues two runs into one. */
  predicate Fuses(a: string, b: string) {
    a != [] && b != [] && !IsWhitespace(a[|a| - 1]) && !IsWhitespace(b[0])
  }

  /** Runs add up under concatenation, less one where a run straddles the seam. */
  lemma {:induction false} RunCountConcat(a: string, b: string)
    ensures RunCount(a + b) == RunCount(a) + RunCount(b) - (if Fuses(a, b) then 1 else 0)
    decreases |b|
  {
    if b == [] {
      assert a + b == a;
    } else {
      var b' := b[..|b| - 1];
      assert (a + b)[..|a + b| - 1] == a + b';
      RunCountConcat(a, b');
      if |b| == 1 {
        assert b' == [] && a + b' == a;
        assert b[..0] == [];
      }
    }
  }

  lemma {:induction false} RunCountBlank(s: string)
    requires IsBlank(s)
    ensures RunCount(s) == 0
  {
    if s != [] {
      RunCountBlank(s[..|s| - 1]);
    }
  }

  lemma {:induction false} RunCountWord(s: string)
    requires s != [] && HasNoWhitespace(s)
    ensures RunCount(s) == 1
  {
    if |s| > 1 {
      RunCountWord(s[..|s| - 1]);
    } else {
      assert s[..0] == [];
    }
  }

  /** White space in front of a text adds no run. */
  lemma RunCountBlankPrefix(w: string, s: string)
    requires IsBlank(w)
    ensures RunCount(w + s) == RunCount(s)
  {
    RunCountConcat(w, s);
    RunCountBlank(w);
  }

  /** White space after a text adds no run. */
  lemma RunCountBlankSuffix(s: string, w: string)
    requires IsBlank(w)
    ensures RunCount(s + w) == RunCount(s)
  {
    RunCountConcat(s, w);
    RunCountBlank(w);
  }

  /** A word followed by a blank run: the runs are the word's and those after. */
  lemma RunCountAfterWord(s: string, i: nat, j: nat)
    requires i <= j <= |s| && HasNoWhitespace(s[..i]) && IsBlank(s[i..j]) && i < j
    ensures RunCount(s) == (if i == 0 then 0 else 1) + RunCount(s[j..])
  {
    assert s == s[..i] + (s[i..j] + s[j..]);
    RunCountBlankPrefix(s[i..j], s[j..]);
    RunCountConcat(s[..i], s[i..j] + s[j..]);
    if i > 0 { RunCountWord(s[..i]); } else { assert s[..i] == []; }
  }

  /** The non-empty pieces of `split(/\s+/)` are exactly the runs of text. */
  lemma {:induction false} SplitOnWhitespaceCountsRuns(s: string)
    ensures |FilterNonEmpty(SplitOnWhitespace(s))| == RunCount(s)
    decreases |s|
  {
    var i := ScanWord(s, 0);
    if i == |s| {
      assert s[0..i] == s;
      if s != [] { RunCountWord(s); }
    } else {
      var j := ScanBlank(s, i);
      assert s[0..i] == s[..i];
      SplitOnWhitespaceCountsRuns(s[j..]);
      RunCountAfterWord(s, i, j);
      FilterNonEmptyAppend([s[..i]], SplitOnWhitespace(s[j..]));
    }
  }

  lemma RunCountTrimStart(s: string)
    ensures RunCount(TrimStart(s)) == RunCount(s)
  {
    var t := TrimStart(s);
    assert s == s[..|s| - |t|] + t;
    RunCountBlankPrefix(s[..|s| - |t|], t);
  }

  lemma RunCountTrimEnd(t: string)
    ensures RunCount(TrimEnd(t)) == RunCount(t)
  {
    var r := TrimEnd(t);
    assert t == r + t[|r|..];
    RunCountBlankSuffix(r, t[|r|..]);
  }

  /** `trim` removes no run. */
  lemma RunCountTrim(s: string)
    ensures RunCount(Trim(s)) == RunCount(s)
  {
    RunCountTrimStart(s);
    RunCountTrimEnd(TrimStart(s));
  }

  /** Empty and all-blank text has no words. */
  lemma CountWordsBlank(text: string)
    requires IsBlank(text)
    ensures CountWords(text) == 0
  {
    RunCountBlank(text);
  }

  /** Blank padding on either side does not change the count. */
  lemma CountWordsPadding(lead: string, text: string, trail: string)
    requires IsBlank(lead) && IsBlank(trail)
    ensures CountWords(lead + text + trail) == CountWords(text)
  {
    RunCountPadding(lead, text, trail);
  }

  lemma RunCountPadding(lead: string, text: string, trail: string)
    requires IsBlank(lead) && IsBlank(trail)
    ensures RunCount(lead + text + trail) == RunCount(text)
  {
    RunCountBlankPrefix(lead, text + trail);
    RunCountBlankSuffix(text, trail);
    assert lead + text + trail == lead + (text + trail);
  }

  /** Widening (or narrowing) a run of white space inside the text does not
      change the count. */
  lemma CountWordsWidening(a: string, w1: string, w2: string, b: string)
    requires IsBlank(w1) && w1 != [] && IsBlank(w2) && w2 != []
    ensures CountWords(a + w1 + b) == CountWords(a + w2 + b)
  {
    RunCountInnerBlank(a, w1, b);
    RunCountInnerBlank(a, w2, b);
  }

  /** A non-empty blank run between two texts separates their runs. */
  lemma RunCountInnerBlank(a: string, w: string, b: string)
    requires IsBlank(w) && w != []
    ensures RunCount(a + w + b) == RunCount(a) + RunCount(b)
  {
    assert a + w + b == a + (w + b);
    RunCountConcat(a, w + b);
    RunCountBlankPrefix(w, b);
  }

  lemma CountWordsExample()
    ensures CountWords("") == 0
    ensures CountWords("  a  b ") == 2
  {
    CountWordsBlank("");
    RunCountExample();
  }

  lemma RunCountExample()
    ensures RunCount("  a  b ") == 2
  {
    var sp, a, b := "  ", "a", "b";
    assert IsBlank(sp) && IsBlank(" ");
    assert HasNoWhitespace(a) && HasNoWhitespace(b);
    RunCountWord(a);
    RunCountWord(b);
    RunCountInnerBlank(a, sp, b);
    RunCountPadding(sp, a + sp + b, " ");
    assert "  a  b " == sp + (a + sp + b) + " ";
  }

  // ------------------------------------------------------- the length tier

  datatype Sentiment = Sentiment(score: int, labelText: string, color: string)

  /** `getSentimentScore`: a rating of the text by its word count alone. */
  function GetSentimentScore(wordCount: int): (r: Sentiment)
    ensures 0 <= r.score <= 100
  {
    if wordCount < 10 then Sentiment(25, "Too short", "bg-red-500")
    else if wordCount < 30 then Sentiment(60, "Good", "bg-yellow-500")
    else Sentiment(90, "Great!", "bg-green-500")
  }

  lemma SentimentTiers(wordCount: int)
    ensures GetSentimentScore(wordCount) == Sentiment(25, "Too short", "bg-red-500") <==> wordCount < 10
    ensures GetSentimentScore(wordCount) == Sentiment(60, "Good", "bg-yellow-500") <==> 10 <= wordCount < 30
    ensures GetSentimentScore(wordCount) == Sentiment(90, "Great!", "bg-green-500") <==> 30 <= wordCount
  {
  }

  lemma SentimentMonotone(w1: int, w2: int)
    requires w1 <= w2
    ensures GetSentimentScore(w1).score <= GetSentimentScore(w2).score
  {
  }

  // --------------------------------------------------------- the component

  datatype QuickAnalysis = QuickAnalysis(wordCount: nat, sentiment: Sentiment, charCount: nat)

  /** What the box shows for `text`: the word count, its rating and
      `text.length`. */
  function Analyze(text: string): (r: QuickAnalysis)
    ensures r.wordCount == CountWords(text) == RunCount(text)
    ensures r.sentiment == GetSentimentScore(r.wordCount)
    ensures r.charCount == Utf16Length(text)
    ensures r.wordCount <= r.charCount
    ensures |text| <= r.charCount <= 2 * |text|
    ensures 0 <= r.sentiment.score <= 100
  {
    var wordCount := CountWords(text);
    QuickAnalysis(wordCount, GetSentimentScore(wordCount), Utf16Length(text))
  }
}
