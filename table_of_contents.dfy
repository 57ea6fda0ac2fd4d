/**
 * The table of contents of a help article: the `## ` and `### ` lines of the
 * markdown, each with an anchor id made from its text.
 */
module TableOfContents {
  import opened Common

  datatype TocItem = TocItem(id: string, text: string, level: int)

  /** The characters a regular-expression `.` does not match. */
  predicate IsLineTerminator(c: char) {
    c == '\n' || c == '\r' || c == '\U{2028}' || c == '\U{2029}'
  }

  /** What `.+` captures at the start of `s`: everything up to the first line terminator. */
  function LineText(s: string): (r: string)
    ensures r <= s
    ensures forall i :: 0 <= i < |r| ==> !IsLineTerminator(r[i])
    ensures |r| < |s| ==> IsLineTerminator(s[|r|])
  {
    if s == [] || IsLineTerminator(s[0]) then [] else [s[0]] + LineText(s[1..])
  }

  /** `line.match(/^<marker>(.+)/)`: the captured text, when the marker is followed by one matching character. */
  function HeadingMatch(line: string, marker: string): (r: Option<string>)
    ensures r.Some? <==> StartsWith(line, marker) && |line| > |marker| && !IsLineTerminator(line[|marker|])
    ensures r.Some? ==> |r.value| >= 1 && marker + r.value <= line
  {
    if StartsWith(line, marker) && |line| > |marker| && !IsLineTerminator(line[|marker|]) then
      var t := LineText(line[|marker|..]);
      assert line == marker + line[|marker|..];
      Some(t)
    else None
  }

  /** The characters `[a-z0-9]` keeps. */
  predicate IsSlugChar(c: char) {
    'a' <= c <= 'z' || '0' <= c <= '9'
  }

  /** Drops the characters outside `[a-z0-9]` at the front. */
  function SkipRun(s: string): (r: string)
    ensures |r| <= |s|
    ensures r != [] ==> IsSlugChar(r[0])
    ensures r == s[|s| - |r|..]
    ensures forall i :: 0 <= i < |s| - |r| ==> !IsSlugChar(s[i])
  {
    if s != [] && !IsSlugChar(s[0]) then SkipRun(s[1..]) else s
  }

  /** `replace(/[^a-z0-9]+/g, '-')`: every maximal run outside `[a-z0-9]` becomes one '-'. */
  function Collapse(s: string): (r: string)
    ensures |r| <= |s|
    ensures r == [] <==> s == []
    ensures r != [] ==> (r[0] == '-' <==> !IsSlugChar(s[0]))
    decreases |s|
  {
    if s == [] then []
    else if IsSlugChar(s[0]) then [s[0]] + Collapse(s[1..])
    else "-" + Collapse(SkipRun(s[1..]))
  }

  /** The anchor id of a heading text. */
  function Slug(text: string): string {
    Collapse(ToLower(text))
  }

  /** Text over `[a-z0-9-]` with no two '-' side by side. */
  predicate SlugShaped(t: string) {
    && (forall i :: 0 <= i < |t| ==> IsSlugChar(t[i]) || t[i] == '-')
    && (forall i :: 0 < i < |t| ==> t[i - 1] != '-' || t[i] != '-')
  }

  /** The letters and digits of a text, in order. */
  function Alnums(s: string): (r: string)
    ensures |r| <= |s|
  {
    if s == [] then [] else (if IsSlugChar(s[0]) then [s[0]] else []) + Alnums(s[1..])
  }

  lemma {:induction false} CollapseShaped(s: string)
    ensures SlugShaped(Collapse(s))
    decreases |s|
  {
    if s == [] {
    } else if IsSlugChar(s[0]) {
      CollapseShaped(s[1..]);
      assert Collapse(s) == [s[0]] + Collapse(s[1..]);
    } else {
      var rest := SkipRun(s[1..]);
      CollapseShaped(rest);
      assert Collapse(s) == "-" + Collapse(rest);
    }
  }

  /** A slug is over `[a-z0-9-]` and never has two '-' in a row. */
  lemma SlugIsShaped(text: string)
    ensures SlugShaped(Slug(text))
  {
    CollapseShaped(ToLower(text));
  }

  /** Collapsing leaves text that is already shaped like a slug as it is. */
  lemma {:induction false} CollapseFixed(t: string)
    requires SlugShaped(t)
    ensures Collapse(t) == t
    decreases |t|
  {
    if t == [] {
    } else {
      assert SlugShaped(t[1..]) by {
        forall i | 0 < i < |t[1..]|
          ensures t[1..][i - 1] != '-' || t[1..][i] != '-'
        {
          assert t[i] != '-' || t[i + 1] != '-';
        }
      }
      CollapseFixed(t[1..]);
      if !IsSlugChar(t[0]) {
        assert t[0] == '-';
        if |t| > 1 {
          assert t[1] != '-';
        }
        assert SkipRun(t[1..]) == t[1..];
      }
    }
  }

  lemma LowerOfShaped(t: string)
    requires SlugShaped(t)
    ensures ToLower(t) == t
  {
    forall i | 0 <= i < |t|
      ensures ToLower(t)[i] == t[i]
    {
      assert IsSlugChar(t[i]) || t[i] == '-';
    }
  }

  /** Making a slug of a slug gives it back. */
  lemma SlugIdempotent(text: string)
    ensures Slug(Slug(text)) == Slug(text)
  {
    SlugIsShaped(text);
    LowerOfShaped(Slug(text));
    CollapseFixed(Slug(text));
  }

  lemma {:induction false} SkipRunAlnums(s: string)
    ensures Alnums(SkipRun(s)) == Alnums(s)
    decreases |s|
  {
    if s != [] && !IsSlugChar(s[0]) {
      SkipRunAlnums(s[1..]);
    }
  }

  /** Collapsing keeps every letter and digit, in order, and only replaces the rest. */
  lemma {:induction false} CollapseKeepsAlnums(s: string)
    ensures Alnums(Collapse(s)) == Alnums(s)
    decreases |s|
  {
    if s == [] {
    } else if IsSlugChar(s[0]) {
      CollapseKeepsAlnums(s[1..]);
      assert Collapse(s) == [s[0]] + Collapse(s[1..]);
      assert ([s[0]] + Collapse(s[1..]))[1..] == Collapse(s[1..]);
    } else {
      var rest := SkipRun(s[1..]);
      CollapseKeepsAlnums(rest);
      SkipRunAlnums(s[1..]);
      assert ("-" + Collapse(rest))[1..] == Collapse(rest);
    }
  }

  /** The heading a line describes: `## ` is tried first, then `### `. */
  function Classify(line: string): (r: Option<TocItem>)
    ensures r.Some? ==> r.value.id == Slug(r.value.text) && |r.value.text| >= 1
    ensures r.Some? && r.value.level == 2 <==> HeadingMatch(line, "## ").Some?
    ensures r.Some? && r.value.level == 3 <==> HeadingMatch(line, "## ").None? && HeadingMatch(line, "### ").Some?
    ensures r.Some? ==> r.value.level == 2 || r.value.level == 3
  {
    match HeadingMatch(line, "## ")
    case Some(t) => Some(TocItem(Slug(t), t, 2))
    case None =>
      match HeadingMatch(line, "### ")
      case Some(t) => Some(TocItem(Slug(t), t, 3))
      case None => None
  }

  /** A `### ` line is never taken for a level-2 heading. */
  lemma ThreeHashesAreLevelThree(line: string)
    requires StartsWith(line, "### ") && |line| > 4 && !IsLineTerminator(line[4])
    ensures Classify(line).Some? && Classify(line).value.level == 3
    ensures Classify(line).value.text == LineText(line[4..])
  {
    assert line[2] == '#';
  }

  /** The headings of the lines, in the order of the lines. */
  function Headings(lines: seq<string>): (r: seq<TocItem>)
    ensures |r| <= |lines|
  {
    if lines == [] then []
    else
      var last := Classify(lines[|lines| - 1]);
      Headings(lines[..|lines| - 1]) + (if last.Some? then [last.value] else [])
  }

  /** The headings of two blocks of lines are the headings of the first, then those of the second. */
  lemma {:induction false} HeadingsAppend(a: seq<string>, b: seq<string>)
    ensures Headings(a + b) == Headings(a) + Headings(b)
    decreases |b|
  {
    if b == [] {
      assert a + b == a;
    } else {
      var b' := b[..|b| - 1];
      assert (a + b)[..|a + b| - 1] == a + b';
      HeadingsAppend(a, b');
    }
  }

  /** Every extracted heading is the heading of one of the lines. */
  lemma {:induction false} HeadingsFromLines(lines: seq<string>, k: int)
    requires 0 <= k < |Headings(lines)|
    ensures exists j :: 0 <= j < |lines| && Classify(lines[j]) == Some(Headings(lines)[k])
    decreases |lines|
  {
    var init := lines[..|lines| - 1];
    if k < |Headings(init)| {
      HeadingsFromLines(init, k);
      var j :| 0 <= j < |init| && Classify(init[j]) == Some(Headings(init)[k]);
      assert lines[j] == init[j];
    } else {
      assert Classify(lines[|lines| - 1]) == Some(Headings(lines)[k]);
    }
  }

  /** The component's extracted headings and its collapse toggle. */
  class TocView {
    var headings: seq<TocItem>
    var expanded: bool

    constructor ()
      ensures headings == [] && expanded
    {
      headings := [];
      expanded := true;
    }

    /** The effect run on new content: walk the lines, pushing each heading found. */
    method Load(content: string)
      modifies this`headings
      ensures headings == Headings(Split(content, '\n'))
    {
      var lines := Split(content, '\n');
      var found: seq<TocItem> := [];
      var i := 0;
      while i < |lines|
        invariant 0 <= i <= |lines|
        invariant found == Headings(lines[..i])
      {
        var item := Classify(lines[i]);
        assert lines[..i + 1][..i] == lines[..i];
        if item.Some? {
          found := found + [item.value];
        }
        i := i + 1;
      }
      assert lines[..|lines|] == lines;
      headings := found;
    }

    method Toggle()
      modifies this`expanded
      ensures expanded == !old(expanded)
    {
      expanded := !expanded;
    }

    /** The card is drawn only when there is a heading to list. */
    function Renders(): (r: bool)
      reads this
      ensures r <==> |headings| > 0
    {
      |headings| != 0
    }
  }

  /** Level-3 entries are drawn indented. */
  function Indented(item: TocItem): (r: bool)
    ensures r <==> item.level == 3
  {
    item.level == 3
  }
}
