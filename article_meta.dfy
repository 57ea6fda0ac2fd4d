/**
 * The reading-time line above an article: words are the pieces of the trimmed
 * content split on runs of white space, read at 200 words a minute.
 */
module ArticleMeta {
  import opened Common

  const WordsPerMinute: int := 200

  /** Drops the white space at the front. */
  function DropSpaces(s: string): (r: string)
    ensures |r| <= |s| && r == s[|s| - |r|..]
    ensures r == [] || !IsJsSpace(r[0])
    ensures forall k :: 0 <= k < |s| - |r| ==> IsJsSpace(s[k])
  {
    if s != [] && IsJsSpace(s[0]) then DropSpaces(s[1..]) else s
  }

  /** The length of the longest prefix without white space. */
  function WordEnd(s: string): (i: nat)
    ensures i <= |s|
    ensures forall k :: 0 <= k < i ==> !IsJsSpace(s[k])
    ensures i < |s| ==> IsJsSpace(s[i])
  {
    if s == [] || IsJsSpace(s[0]) then 0 else 1 + WordEnd(s[1..])
  }

  /** `s.split(/\s+/)`: the pieces between the maximal runs of white space. */
  function SplitSpaces(s: string): (r: seq<string>)
    ensures 1 <= |r| <= |s| + 1
    ensures forall k :: 0 <= k < |r| ==> forall j :: 0 <= j < |r[k]| ==> !IsJsSpace(r[k][j])
    decreases |s|
  {
    var i := WordEnd(s);
    if i == |s| then [s] else [s[..i]] + SplitSpaces(DropSpaces(s[i..]))
  }

  /**
   * The runs of white space in `s`, counted by a scan from the front: a run
   * begins at each white-space character whose predecessor is not white space
   * (`prevSpace` tells whether the character before `s` was).
   */
  function RunsAfter(prevSpace: bool, s: string): nat
    decreases |s|
  {
    if s == [] then 0
    else (if IsJsSpace(s[0]) && !prevSpace then 1 else 0) + RunsAfter(IsJsSpace(s[0]), s[1..])
  }

  function Runs(s: string): nat {
    RunsAfter(false, s)
  }

  /** A word adds no run, and after it the preceding character is not white space. */
  lemma {:induction false} RunsOverWord(p: bool, s: string)
    ensures RunsAfter(p, s) == RunsAfter(if WordEnd(s) == 0 then p else false, s[WordEnd(s)..])
    decreases |s|
  {
    if s != [] && !IsJsSpace(s[0]) {
      RunsOverWord(false, s[1..]);
      assert s[1..][WordEnd(s[1..])..] == s[WordEnd(s)..];
    }
  }

  /** White space that continues a run adds no run. */
  lemma {:induction false} RunsOverSpaces(s: string)
    ensures RunsAfter(true, s) == RunsAfter(true, DropSpaces(s))
    decreases |s|
  {
    if s != [] && IsJsSpace(s[0]) {
      RunsOverSpaces(s[1..]);
    }
  }

  /** One step of the split: the first word, then the split of what follows the run of white space after it. */
  lemma SplitStep(s: string)
    requires WordEnd(s) < |s|
    ensures IsJsSpace(s[WordEnd(s)])
    ensures SplitSpaces(s) == [s[..WordEnd(s)]] + SplitSpaces(DropSpaces(s[WordEnd(s) + 1..]))
    ensures |DropSpaces(s[WordEnd(s) + 1..])| < |s|
  {
    var i := WordEnd(s);
    assert s[i..][1..] == s[i + 1..];
  }

  /** The run of white space starting at a space of `s` adds one run in all. */
  lemma RunAt(s: string)
    requires s != [] && IsJsSpace(s[0])
    ensures RunsAfter(false, s) == 1 + RunsAfter(false, DropSpaces(s[1..]))
  {
    RunsOverSpaces(s[1..]);
    var rest := DropSpaces(s[1..]);
    assert RunsAfter(true, rest) == RunsAfter(false, rest);
  }

  /** `split(/\s+/)` gives one piece more than the text has runs of white space. */
  lemma {:induction false} PiecesAreRunsPlusOne(s: string)
    ensures |SplitSpaces(s)| == 1 + Runs(s)
    decreases |s|
  {
    var i := WordEnd(s);
    RunsOverWord(false, s);
    if i < |s| {
      SplitStep(s);
      RunAt(s[i..]);
      assert s[i..][1..] == s[i + 1..];
      PiecesAreRunsPlusOne(DropSpaces(s[i + 1..]));
    } else {
      assert s[i..] == [];
    }
  }

  function NonSpace(): char -> bool {
    (c: char) => !IsJsSpace(c)
  }

  /** The characters of the text that are not white space: the first word, then those after it. */
  lemma {:induction false} WordText(s: string)
    ensures Filter(s, NonSpace()) == s[..WordEnd(s)] + Filter(s[WordEnd(s)..], NonSpace())
    decreases |s|
  {
    if s != [] && !IsJsSpace(s[0]) {
      WordText(s[1..]);
      var j := WordEnd(s[1..]);
      assert s[..1 + j] == [s[0]] + s[1..][..j];
      assert s[1..][j..] == s[1 + j..];
    }
  }

  /** Dropping white space drops none of the other characters. */
  lemma {:induction false} DropKeepsText(t: string)
    ensures Filter(t, NonSpace()) == Filter(DropSpaces(t), NonSpace())
    decreases |t|
  {
    if t != [] && IsJsSpace(t[0]) {
      DropKeepsText(t[1..]);
    }
  }

  /** A run of white space at the front of the text holds none of its other characters. */
  lemma RunKeepsText(t: string)
    requires t != [] && IsJsSpace(t[0])
    ensures Filter(t, NonSpace()) == Filter(DropSpaces(t[1..]), NonSpace())
  {
    DropKeepsText(t[1..]);
  }

  /** The pieces hold exactly the characters of the text that are not white space, in order. */
  lemma {:induction false} PiecesHoldText(s: string)
    ensures Concat(SplitSpaces(s)) == Filter(s, NonSpace())
    decreases |s|
  {
    var i := WordEnd(s);
    WordText(s);
    if i < |s| {
      SplitStep(s);
      var rest := DropSpaces(s[i + 1..]);
      ConcatCons(s[..i], SplitSpaces(rest));
      assert s[i..][1..] == s[i + 1..];
      RunKeepsText(s[i..]);
      PiecesHoldText(rest);
    } else {
      assert s[..i] == s && s[i..] == [];
    }
  }

  /** The word count: the number of pieces of the trimmed content, one more than its runs of white space. */
  function WordCount(content: string): (n: int)
    ensures n >= 1
    ensures n == 1 + Runs(Trim(content))
  {
    PiecesAreRunsPlusOne(Trim(content));
    |SplitSpaces(Trim(content))|
  }

  /** `Math.ceil(words / 200)`. */
  function ReadingTime(words: int): (m: int)
    requires words >= 0
    ensures WordsPerMinute * (m - 1) < words <= WordsPerMinute * m || (words == 0 && m == 0)
  {
    (words + WordsPerMinute - 1) / WordsPerMinute
  }

  /** The minutes shown for an article. */
  function ArticleMinutes(content: string): (m: int)
    ensures m >= 1
  {
    ReadingTime(WordCount(content))
  }

  /** Blank content still counts as one (empty) word, and so as one minute. */
  lemma BlankIsOneWord(content: string)
    requires IsBlank(content)
    ensures SplitSpaces(Trim(content)) == [""]
    ensures WordCount(content) == 1 && ArticleMinutes(content) == 1
  {
    TrimEmptyIffBlank(content);
  }

  lemma TrimEnds(s: string)
    ensures Trim(s) == [] || (!IsJsSpace(Trim(s)[0]) && !IsJsSpace(Trim(s)[|Trim(s)| - 1]))
  {
    var t := TrimStart(s);
    if Trim(s) != [] {
      assert Trim(s)[0] == t[0];
    }
  }

  /** Text without white space at either end splits into non-empty words. */
  lemma {:induction false} WordsNonEmpty(s: string)
    requires s != [] && !IsJsSpace(s[0]) && !IsJsSpace(s[|s| - 1])
    ensures forall k :: 0 <= k < |SplitSpaces(s)| ==> SplitSpaces(s)[k] != []
    decreases |s|
  {
    var i := WordEnd(s);
    if i < |s| {
      var rest := DropSpaces(s[i..]);
      assert rest != [] && rest[|rest| - 1] == s[|s| - 1];
      WordsNonEmpty(rest);
      assert SplitSpaces(s) == [s[..i]] + SplitSpaces(rest);
    }
  }

  /** Content that is not blank has only non-empty words. */
  lemma WordsOfContent(content: string)
    requires !IsBlank(content)
    ensures forall k :: 0 <= k < WordCount(content) ==> SplitSpaces(Trim(content))[k] != []
  {
    TrimEmptyIffBlank(content);
    TrimEnds(content);
    WordsNonEmpty(Trim(content));
  }

  /** More words never take less time. */
  lemma ReadingTimeMonotone(a: int, b: int)
    requires 0 <= a <= b
    ensures ReadingTime(a) <= ReadingTime(b)
  {
  }

  /** The boundary: 200 words are one minute, 201 are two. */
  lemma ReadingTimeBoundary()
    ensures ReadingTime(200) == 1 && ReadingTime(201) == 2
  {
  }
}
